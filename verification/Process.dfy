/** Starting, stopping and killing Firecracker processes, with and without the jailer. */
module Process {
  import opened GoStrings
  import opened GoPath
  import opened Environment
  import opened Layout
  import opened Storage

  /** Its fields are never assigned after construction, so a process handle is a value. */
  datatype VMProcess = VMProcess(pid: nat, socketPath: Path)

  datatype StartError = NotPrepared | LogFailed | SpawnFailed | DiedAtOnce | SocketTimeout

  /** Whatever was started between `p` and `q` is no longer running. */
  ghost predicate NothingLeftRunning(p: map<nat, Proc>, q: map<nat, Proc>) {
    forall k :: k in q && k !in p ==> !q[k].status.Running?
  }

  /** One process was started, has received no request yet, and is `pid`. */
  ghost predicate StartedOnly(p: map<nat, Proc>, q: map<nat, Proc>, pid: nat) {
    pid !in p && q.Keys == p.Keys + {pid} && q[pid].calls == [] && !q[pid].status.Signalled?
  }

  /** `k` rounds of waiting: a reading of the clock before the deadline, an unsuccessful poll, and a pause. */
  predicate Rounds(socketPath: Path, deadline: nat, k: nat, t: seq<Act>) {
    if k == 0 then t == []
    else
      && |t| >= 3 && Rounds(socketPath, deadline, k - 1, t[..|t| - 3])
      && t[|t| - 3].Read? && t[|t| - 3].time < deadline
      && t[|t| - 2] == Polled(socketPath, false) && t[|t| - 1] == Slept(100)
  }

  /** From a reading of the clock at `start`, `polls` unsuccessful rounds led to the one at `now`. */
  predicate Waiting(socketPath: Path, start: nat, deadline: nat, polls: nat, now: nat, t: seq<Act>) {
    && |t| >= 2 && t[0] == Read(start) && t[|t| - 1] == Read(now)
    && Rounds(socketPath, deadline, polls, t[1..|t| - 1])
  }

  /** Waiting until a poll before the deadline was successful, or a reading of the clock was past the deadline. */
  predicate Waited(socketPath: Path, timeout: nat, ready: bool, polls: nat, t: seq<Act>) {
    && |t| >= 2 && t[0].Read?
    && var start, last := t[0].time, t[|t| - 1];
    if ready then
      && polls > 0 && last == Polled(socketPath, true) && t[|t| - 2].Read? && t[|t| - 2].time < start + timeout
      && Waiting(socketPath, start, start + timeout, polls - 1, t[|t| - 2].time, t[..|t| - 1])
    else
      last.Read? && last.time >= start + timeout && Waiting(socketPath, start, start + timeout, polls, last.time, t)
  }

  lemma WaitBegins(socketPath: Path, start: nat, deadline: nat, now: nat, t0: seq<Act>, after: seq<Act>)
    requires after == t0 + [Read(start)] + [Read(now)]
    ensures t0 <= after && Waiting(socketPath, start, deadline, 0, now, Since(t0, after))
  {
    SinceIs(t0, [Read(start), Read(now)], after);
  }

  lemma WaitGoesOn(socketPath: Path, start: nat, deadline: nat, polls: nat, now: nat,
                   t0: seq<Act>, mid: seq<Act>, now': nat, after: seq<Act>)
    requires t0 <= mid && Waiting(socketPath, start, deadline, polls, now, Since(t0, mid)) && now < deadline
    requires after == mid + [Polled(socketPath, false)] + [Slept(100)] + [Read(now')]
    ensures t0 <= after && Waiting(socketPath, start, deadline, polls + 1, now', Since(t0, after))
  {
    var t := Since(t0, mid);
    var longer := t + [Polled(socketPath, false), Slept(100), Read(now')];
    SinceIs(t0, longer, after);
    var rounds := longer[1..|longer| - 1];
    assert rounds == t[1..|t| - 1] + [Read(now), Polled(socketPath, false), Slept(100)];
  }

  lemma WaitEnds(socketPath: Path, timeout: nat, start: nat, polls: nat, now: nat, t0: seq<Act>, mid: seq<Act>)
    requires t0 <= mid && Waiting(socketPath, start, start + timeout, polls, now, Since(t0, mid))
    ensures now >= start + timeout ==> Waited(socketPath, timeout, false, polls, Since(t0, mid))
    ensures var after := mid + [Polled(socketPath, true)];
      t0 <= after && (now < start + timeout ==> Waited(socketPath, timeout, true, polls + 1, Since(t0, after)))
  {
    var t := Since(t0, mid);
    var longer := t + [Polled(socketPath, true)];
    SinceIs(t0, longer, mid + [Polled(socketPath, true)]);
    assert longer[..|longer| - 1] == t;
  }

  lemma {:induction false} RoundsFindNothing(socketPath: Path, deadline: nat, k: nat, t: seq<Act>)
    requires Rounds(socketPath, deadline, k, t)
    ensures Quiet(t) && Polled(socketPath, true) !in t && forall a :: a in t && a.Slept? ==> a.millis == 100
  {
    if k > 0 {
      RoundsFindNothing(socketPath, deadline, k - 1, t[..|t| - 3]);
      assert t == t[..|t| - 3] + [t[|t| - 3], t[|t| - 2], t[|t| - 1]];
    }
  }

  lemma WaitedAsksNothing(socketPath: Path, timeout: nat, ready: bool, polls: nat, t: seq<Act>)
    requires Waited(socketPath, timeout, ready, polls, t)
    ensures Quiet(t) && (ready <==> Polled(socketPath, true) in t)
    ensures forall a :: a in t && a.Slept? ==> a.millis == 100
  {
    var w := if ready then t[..|t| - 1] else t;
    var rounds := w[1..|w| - 1];
    RoundsFindNothing(socketPath, t[0].time + timeout, if ready then polls - 1 else polls, rounds);
    assert w == [w[0]] + rounds + [w[|w| - 1]] && (ready ==> t == w + [t[|t| - 1]]);
  }

  /** Polls for the socket until it is there or the deadline has passed. */
  method WaitForSocket(host: Host, socketPath: Path, timeout: nat) returns (ready: bool, polls: nat)
    modifies host`st, host`clock, host`trace
    ensures host.st == old(host.st).(nodes := host.st.nodes, procs := host.st.procs)
    ensures Aged(old(host.st.procs), host.st.procs) && host.st.procs.Keys == old(host.st.procs).Keys
    ensures host.st.nodes == if ready then old(host.st.nodes) + {socketPath} else old(host.st.nodes)
    ensures host.clock >= old(host.clock) + if ready then 0 else timeout
    ensures 100 * polls < timeout + 100
    ensures old(host.trace) <= host.trace
    ensures Waited(socketPath, timeout, ready, polls, Since(old(host.trace), host.trace))
    ensures ready <==> Polled(socketPath, true) in Since(old(host.trace), host.trace)
    ensures forall a :: a in Since(old(host.trace), host.trace) && a.Slept? ==> a.millis == 100
  {
    hide Waiting, Waited, Since, Aged;
    polls := 0;
    var start := host.Now();
    var deadline := start + timeout;
    var now := host.Now();
    WaitBegins(socketPath, start, deadline, now, old(host.trace), host.trace);
    AgedAtOnce(host.st.procs);
    while now < deadline
      invariant host.st == old(host.st).(procs := host.st.procs)
      invariant Aged(old(host.st.procs), host.st.procs) && host.st.procs.Keys == old(host.st.procs).Keys
      invariant old(host.clock) <= start && now <= host.clock
      invariant start + 100 * polls <= now
      invariant polls > 0 ==> 100 * (polls - 1) < timeout
      invariant old(host.trace) <= host.trace
      invariant Waiting(socketPath, start, deadline, polls, now, Since(old(host.trace), host.trace))
      decreases deadline - now
    {
      ghost var mid, read := host.trace, now;
      var there := host.StatSocket(socketPath);
      if there {
        WaitEnds(socketPath, timeout, start, polls, now, old(host.trace), mid);
        WaitedAsksNothing(socketPath, timeout, true, polls + 1, Since(old(host.trace), host.trace));
        return true, polls + 1;
      }
      ghost var before := host.st.procs;
      host.Sleep(100);
      AgedTransitive(old(host.st.procs), before, host.st.procs);
      now := host.Now();
      WaitGoesOn(socketPath, start, deadline, polls, read, old(host.trace), mid, now, host.trace);
      polls := polls + 1;
    }
    WaitEnds(socketPath, timeout, start, polls, now, old(host.trace), host.trace);
    WaitedAsksNothing(socketPath, timeout, false, polls, Since(old(host.trace), host.trace));
    ready := false;
  }

  /**
   * What the host reported to a start that listens at `socketPath`, or failed at `e`, having waited for
   * `waited` milliseconds. No start sends a request.
   */
  ghost predicate StartReported(e: Option<StartError>, socketPath: Path, patience: nat, waited: int, t: seq<Act>) {
    && Quiet(t)
    && (Polled(socketPath, true) in t <==> e.None?)
    && match e
       case None => true
       case Some(NotPrepared) => exists a :: a in t && Preparatory(a) && !a.ok
       case Some(LogFailed) => exists a :: a in t && a.Opened? && !a.ok
       case Some(SpawnFailed) => NotStarted in t
       case Some(DiedAtOnce) => exists pid :: Did(Spawn(pid), true) in t && Probed(pid, false) in t
       case Some(SocketTimeout) => waited >= patience
  }

  /** Reports stay what they were, however much was done before and after. */
  lemma ReportedWithin(e: Option<StartError>, socketPath: Path, patience: nat, waited: int, waited': int,
                       before: seq<Act>, t: seq<Act>, after: seq<Act>)
    requires StartReported(e, socketPath, patience, waited, t) && waited <= waited' && Plain(before) && Plain(after)
    ensures StartReported(e, socketPath, patience, waited', before + t + after)
  {
    var all := before + t + after;
    forall a | a in t ensures a in all {
    }
    if e == Some(DiedAtOnce) {
      var pid :| Did(Spawn(pid), true) in t && Probed(pid, false) in t;
      assert Did(Spawn(pid), true) in all && Probed(pid, false) in all;
    }
  }

  /** The start of a process, and under the jailer a pause and a probe. */
  function Opening(jailed: bool, pid: nat, alive: bool): seq<Act> {
    [Did(Spawn(pid), true)] + if jailed then [Slept(500), Probed(pid, alive)] else []
  }

  /** All that a launch which ended with `r` did. */
  ghost predicate LaunchTrace(jailed: bool, socketPath: Path, timeout: nat, r: Result<nat, StartError>, t: seq<Act>) {
    match r
    case Ok(pid) =>
      exists polls, w :: Waited(socketPath, timeout, true, polls, w) && t == Opening(jailed, pid, true) + w
    case Err(SpawnFailed) => t == [NotStarted]
    case Err(DiedAtOnce) => jailed && exists pid :: t == Opening(true, pid, false)
    case Err(SocketTimeout) =>
      exists pid, gone, polls, w ::
        Waited(socketPath, timeout, false, polls, w) && t == Opening(jailed, pid, true) + w + [Did(Kill(pid), gone)]
    case Err(_) => false
  }

  lemma LaunchWaited(jailed: bool, socketPath: Path, timeout: nat, pid: nat, ready: bool, polls: nat, gone: bool,
                     t0: seq<Act>, t1: seq<Act>, t2: seq<Act>, t3: seq<Act>)
    requires t1 == t0 + Opening(jailed, pid, true) && t1 <= t2 && Waited(socketPath, timeout, ready, polls, Since(t1, t2))
    requires t3 == if ready then t2 else t2 + [Did(Kill(pid), gone)]
    ensures t0 <= t3
    ensures var r: Result<nat, StartError> := if ready then Ok(pid) else Err(SocketTimeout);
      LaunchTrace(jailed, socketPath, timeout, r, Since(t0, t3))
  {
    var w := Since(t1, t2);
    SinceIs(t0, Opening(jailed, pid, true) + w + if ready then [] else [Did(Kill(pid), gone)], t3);
    assert ready ==> Since(t0, t3) == Opening(jailed, pid, true) + w;
  }

  /** The wait decides: what is done around it neither asks nor polls. */
  lemma WaitReported(socketPath: Path, timeout: nat, ready: bool, polls: nat, waited: int,
                     before: seq<Act>, w: seq<Act>, after: seq<Act>)
    requires Waited(socketPath, timeout, ready, polls, w) && Plain(before) && Plain(after) && (!ready ==> waited >= timeout)
    ensures StartReported(if ready then None else Some(SocketTimeout), socketPath, timeout, waited, before + w + after)
  {
    WaitedAsksNothing(socketPath, timeout, ready, polls, w);
    hide Waited;
  }

  lemma LaunchTraceReported(jailed: bool, socketPath: Path, timeout: nat, r: Result<nat, StartError>, waited: int, t: seq<Act>)
    requires LaunchTrace(jailed, socketPath, timeout, r, t) && (r == Err(SocketTimeout) ==> waited >= timeout)
    ensures StartReported(ErrorOf(r), socketPath, timeout, waited, t)
  {
    hide Waited;
    match r {
      case Ok(pid) =>
        var polls: nat, w :| Waited(socketPath, timeout, true, polls, w) && t == Opening(jailed, pid, true) + w;
        hide StartReported;
        WaitReported(socketPath, timeout, true, polls, waited, Opening(jailed, pid, true), w, []);
        assert Opening(jailed, pid, true) + w + [] == t;
      case Err(SpawnFailed) =>
      case Err(DiedAtOnce) =>
        var pid: nat :| t == Opening(true, pid, false);
        assert t[0] == Did(Spawn(pid), true) && t[2] == Probed(pid, false);
      case Err(SocketTimeout) =>
        var pid: nat, gone, polls: nat, w :|
          Waited(socketPath, timeout, false, polls, w) && t == Opening(jailed, pid, true) + w + [Did(Kill(pid), gone)];
        hide StartReported;
        WaitReported(socketPath, timeout, false, polls, waited, Opening(jailed, pid, true), w, [Did(Kill(pid), gone)]);
      case Err(_) =>
    }
  }

  lemma LogReported(socketPath: Path, before: seq<Act>, logPath: Path, patience: nat, t: seq<Act>, waited: int)
    requires Plain(before) && t == before + [Opened(logPath, false)]
    ensures StartReported(Some(LogFailed), socketPath, patience, waited, t)
  {
    assert t[|before|] == Opened(logPath, false);
  }

  /** A launch that followed some preparations. */
  lemma LaunchReported(jailed: bool, socketPath: Path, timeout: nat, r: Result<nat, StartError>, waited: int,
                       t0: seq<Act>, t1: seq<Act>, t2: seq<Act>)
    requires t0 <= t1 <= t2 && Plain(Since(t0, t1))
    requires LaunchTrace(jailed, socketPath, timeout, r, Since(t1, t2)) && (r == Err(SocketTimeout) ==> waited >= timeout)
    ensures StartReported(ErrorOf(r), socketPath, timeout, waited, Since(t0, t2)) && Since(t0, t1) <= Since(t0, t2)
    ensures r != Err(NotPrepared) && r != Err(LogFailed)
  {
    LaunchTraceReported(jailed, socketPath, timeout, r, waited, Since(t1, t2));
    SinceJoins(t0, t1, t2);
    ReportedWithin(ErrorOf(r), socketPath, timeout, waited, waited, Since(t0, t1), Since(t1, t2), []);
    assert Since(t0, t1) + Since(t1, t2) + [] == Since(t0, t2);
  }

  /** A step that makes a start possible. */
  predicate Preparatory(a: Act) {
    a.Checked? || a.Copied? || (a.Did? && a.cmd.MkdirAll?)
  }

  lemma NotPreparedReported(steps: seq<Act>, socketPath: Path, patience: nat, t: seq<Act>)
    requires (forall a :: a in steps ==> Preparatory(a)) && Tried(steps, false, t)
    ensures StartReported(Some(NotPrepared), socketPath, patience, 0, t)
  {
    var last := t[|t| - 1];
    assert Preparatory(steps[|t| - 1]) && last in t && last == Failed(steps[|t| - 1]);
    forall a | a in t ensures Preparatory(a) {
      if a != last { assert a in steps[..|t| - 1] && a in steps; }
    }
  }

  /** The commands of a start that failed at `e`, `pid` being the process if one was started. */
  predicate StartIssued(cfg: Config, id: Bytes, e: StartError, pid: nat, c: seq<Cmd>) {
    var fill := if cfg.useJailer then JailCommands(cfg, id) else [];
    match e
    case NotPrepared => c <= fill
    case LogFailed => c == fill
    case SpawnFailed => c == fill
    case DiedAtOnce => c == fill + [Spawn(pid)]
    case SocketTimeout => c == fill + [Spawn(pid), Kill(pid)]
  }

  /** The socket and the log belong to the VM. */
  lemma OwnFilesConfined(cfg: Config, id: Bytes, n: set<Path>, n': set<Path>)
    requires forall p :: p != SocketPath(cfg, id) && p != LogPath(cfg, id) ==> (p in n <==> p in n')
    ensures Confined(cfg, id, n, n')
  {
    SocketInside(cfg, id);
    var root := VMDir(cfg, id);
    assert root.Child(LOG_FILE).segs[..|root.segs|] == root.segs;
  }

  /** What either way of starting may change, and that a failed start leaves nothing running. */
  ghost predicate StartEffect(cfg: Config, id: Bytes, s: HostState, r: Result<VMProcess, StartError>, s': HostState) {
    && s' == s.(procs := s'.procs, nodes := s'.nodes, logs := s'.logs, commands := s'.commands)
    && s.commands <= s'.commands
    && Aged(s.procs, s'.procs)
    && Confined(cfg, id, s.nodes, s'.nodes)
    && (forall p :: p in s.nodes && p != SocketPath(cfg, id) ==> p in s'.nodes)
    && (r.Ok? ==> StartedOnly(s.procs, s'.procs, r.value.pid))
    && (r.Err? ==> NothingLeftRunning(s.procs, s'.procs))
    && (r.Err? ==> exists pid :: StartIssued(cfg, id, r.error, pid, s'.commands[|s.commands|..]))
  }

  /** The launch itself: the process runs and listens, or nothing it started does. */
  ghost predicate Launched(keepsLog: bool, socketPath: Path, s: HostState, r: Result<nat, StartError>, s': HostState) {
    && s' == s.(procs := s'.procs, nodes := s'.nodes, logs := s'.logs, commands := s'.commands)
    && s'.logs == s.logs + (if keepsLog && r.Ok? then {r.value} else {})
    && Aged(s.procs, s'.procs)
    && (s'.nodes == s.nodes || s'.nodes == s.nodes + {socketPath})
    && (r.Ok? ==>
          && StartedOnly(s.procs, s'.procs, r.value)
          && socketPath in s'.nodes && s'.commands == s.commands + [Spawn(r.value)])
    && (r.Err? ==> NothingLeftRunning(s.procs, s'.procs))
    && (r.Err? ==> exists pid :: LaunchIssued(s, r.error, pid, s'))
  }

  predicate LaunchIssued(s: HostState, e: StartError, pid: nat, s': HostState) {
    match e
    case SpawnFailed => s'.commands == s.commands
    case DiedAtOnce => s'.commands == s.commands + [Spawn(pid)]
    case SocketTimeout => s'.commands == s.commands + [Spawn(pid), Kill(pid)]
    case _ => false
  }

  /** A launch after the files were put in place is a start. */
  lemma LaunchIsStart(cfg: Config, id: Bytes, s0: HostState, s1: HostState, r: Result<nat, StartError>, s2: HostState)
    requires OnlyFiles(s0, s1) && Confined(cfg, id, s0.nodes, s1.nodes)
    requires forall p :: p in s0.nodes && p != SocketPath(cfg, id) ==> p in s1.nodes
    requires s1.commands == s0.commands + if cfg.useJailer then JailCommands(cfg, id) else []
    requires Launched(!cfg.useJailer, SocketPath(cfg, id), s1, r, s2)
    ensures StartEffect(cfg, id, s0,
      if r.Ok? then Ok(VMProcess(r.value, SocketPath(cfg, id))) else Err(r.error), s2)
    ensures r.Ok? ==> s2.commands == s0.commands + (if cfg.useJailer then JailCommands(cfg, id) else []) + [Spawn(r.value)]
    ensures s2.logs == s0.logs + if !cfg.useJailer && r.Ok? then {r.value} else {}
    ensures s1.nodes <= s2.nodes && (r.Ok? ==> SocketPath(cfg, id) in s2.nodes)
  {
    OwnFilesConfined(cfg, id, s1.nodes, s2.nodes);
    ConfinedTransitive(cfg, id, s0.nodes, s1.nodes, s2.nodes);
    hide Confined, SocketPath, JailCommands;
    if r.Err? {
      var pid: nat :| LaunchIssued(s1, r.error, pid, s2);
      assert StartIssued(cfg, id, r.error, pid, s2.commands[|s0.commands|..]);
    }
  }

  /** A start that failed before it launched anything. */
  lemma NothingLaunched(cfg: Config, id: Bytes, s0: HostState, e: StartError, s1: HostState)
    requires OnlyFiles(s0, s1) && Confined(cfg, id, s0.nodes, s1.nodes)
    requires forall p :: p in s0.nodes && p != SocketPath(cfg, id) ==> p in s1.nodes
    requires StartIssued(cfg, id, e, 0, s1.commands[|s0.commands|..])
    ensures StartEffect(cfg, id, s0, Err(e), s1)
  {
  }

  method StartFirecrackerProcess(host: Host, cfg: Config, id: Bytes, socketPath: Path, logPath: Path)
    returns (r: Result<VMProcess, StartError>)
    requires !cfg.useJailer && socketPath == SocketPath(cfg, id) && logPath == LogPath(cfg, id)
    requires host.st.logs <= host.st.procs.Keys
    modifies host`st, host`clock, host`trace, host`unattached
    ensures StartEffect(cfg, id, old(host.st), r, host.st)
    ensures r.Ok? ==>
      && r.value.socketPath == socketPath && host.st.logs == old(host.st.logs) + {r.value.pid}
      && {socketPath, logPath} <= host.st.nodes
      && host.st.commands == old(host.st.commands) + [Spawn(r.value.pid)]
    ensures r.Err? ==> host.st.logs == old(host.st.logs)
    ensures host.unattached == old(host.unattached)
    ensures old(host.trace) <= host.trace
    ensures
      var t := Since(old(host.trace), host.trace);
      && [Unlinked(socketPath), Opened(logPath, r != Err(LogFailed))] <= t
      && StartReported(ErrorOf(r), socketPath, 5000, host.clock - old(host.clock), t)
  {
    hide SocketPath, LogPath, VMDir, Confined, StartEffect, Launched, StartReported, LaunchTrace, Since;
    ghost var s0, t0 := host.st, host.trace;
    host.RemoveFile(socketPath);
    var ok := host.OpenLog(logPath);
    ghost var s1, t1 := host.st, host.trace;
    OwnFilesConfined(cfg, id, s0.nodes, s1.nodes);
    SinceIs(t0, [Unlinked(socketPath), Opened(logPath, ok)], t1);
    if !ok {
      assert s1.commands[|s0.commands|..] == [];
      NothingLaunched(cfg, id, s0, LogFailed, s1);
      LogReported(socketPath, [Unlinked(socketPath)], logPath, 5000, Since(t0, t1), host.clock - old(host.clock));
      return Err(LogFailed);
    }
    var pid := LaunchDirect(host, socketPath);
    LaunchReported(false, socketPath, 5000, pid, host.clock - old(host.clock), t0, t1, host.trace);
    LaunchIsStart(cfg, id, s0, s1, pid, host.st);
    if pid.Err? { return Err(pid.error); }
    r := Ok(VMProcess(pid.value, socketPath));
  }

  /** The part of the direct start that runs once the log is open: its handle is handed over, or closed. */
  method LaunchDirect(host: Host, socketPath: Path) returns (r: Result<nat, StartError>)
    requires host.unattached > 0 && host.st.logs <= host.st.procs.Keys
    modifies host`st, host`clock, host`unattached, host`trace
    ensures Launched(true, socketPath, old(host.st), r, host.st)
    ensures host.unattached == old(host.unattached) - 1
    ensures old(host.trace) <= host.trace && host.clock >= old(host.clock)
    ensures LaunchTrace(false, socketPath, 5000, r, Since(old(host.trace), host.trace))
    ensures r == Err(SocketTimeout) ==> host.clock >= old(host.clock) + 5000
  {
    hide LaunchTrace, Waited, Since, Launched, Aged, AgedBut;
    ghost var s, t0 := host.st, host.trace;
    var ok, pid := host.StartProcess();
    if !ok {
      host.CloseUnattachedLog();
      NothingStarted(true, socketPath, s);
      NotLaunched(false, socketPath, 5000, t0, host.trace);
      return Err(SpawnFailed);
    }
    host.AttachLog(pid);
    ghost var t1 := host.trace;
    var ready, polls := WaitForSocket(host, socketPath, 5000);
    ghost var m, t2 := host.st, host.trace;
    if !ready {
      var gone := host.SignalKill(pid);
      host.CloseLog(pid);
      DirectLaunched(socketPath, s, pid, m, false, host.st);
      LaunchWaited(false, socketPath, 5000, pid, false, polls, gone, t0, t1, t2, host.trace);
      return Err(SocketTimeout);
    }
    DirectLaunched(socketPath, s, pid, m, true, m);
    LaunchWaited(false, socketPath, 5000, pid, true, polls, false, t0, t1, t2, t2);
    r := Ok(pid);
  }

  /** From `s` process `pid` was started with its log, aged, and found listening, or killed. */
  lemma DirectLaunched(socketPath: Path, s: HostState, pid: nat, m: HostState, ready: bool, s': HostState)
    requires pid !in s.procs && s.logs <= s.procs.Keys && m.procs.Keys == s.procs.Keys + {pid}
    requires m == s.(procs := m.procs, nodes := m.nodes, logs := s.logs + {pid}, commands := s.commands + [Spawn(pid)])
    requires m.nodes == if ready then s.nodes + {socketPath} else s.nodes
    requires Aged(s.procs[pid := Proc(Running, [])], m.procs)
    requires if ready then s' == m else
      && s' == m.(procs := s'.procs, logs := m.logs - {pid}, commands := m.commands + [Kill(pid)])
      && s'.procs.Keys == m.procs.Keys && AgedBut(m.procs, s'.procs, pid) && !Alive(s', pid)
    ensures Launched(true, socketPath, s, if ready then Ok(pid) else Err(SocketTimeout), s')
  {
    assert AgedProc(Proc(Running, []), m.procs[pid]);
    forall k | k in s.procs ensures AgedProc(s.procs[k], s'.procs[k]) {
      assert AgedProc(s.procs[k], m.procs[k]) && (!ready ==> AgedProc(m.procs[k], s'.procs[k]));
    }
    if !ready { assert LaunchIssued(s, SocketTimeout, pid, s'); }
  }

  lemma NotLaunched(jailed: bool, socketPath: Path, timeout: nat, t0: seq<Act>, t1: seq<Act>)
    requires t1 == t0 + [NotStarted]
    ensures t0 <= t1 && LaunchTrace(jailed, socketPath, timeout, Err(SpawnFailed), Since(t0, t1))
  {
    SinceIs(t0, [NotStarted], t1);
  }

  /** The native jailer: fills the jail, starts the jailer, and rewrites the paths for the API calls. */
  method StartJailedProcess(host: Host, cfg: Config, id: Bytes, jailPaths: JailPaths)
    returns (r: Result<VMProcess, StartError>)
    requires cfg.useJailer
    requires jailPaths.jailDir == VMDir(cfg, id) && jailPaths.logPath == LogPath(cfg, id)
    modifies host`st, host`clock, host`trace, host`unattached, jailPaths
    ensures StartEffect(cfg, id, old(host.st), r, host.st)
    ensures host.st.logs == old(host.st.logs) && host.unattached == old(host.unattached)
    ensures r.Ok? ==>
      && JailFiles(cfg, id) + {SocketPath(cfg, id), LogPath(cfg, id)} <= host.st.nodes
      && (var root := Path(cfg.vmsDir.rooted, cfg.vmsDir.segs + [FIRECRACKER, id, ROOT_DIR]);
          {root.Child(FIRECRACKER), root.Child(JAILED_KERNEL_FILE), root.Child(ROOTFS_FILE)} <= host.st.nodes)
      && host.st.commands == old(host.st.commands) + JailCommands(cfg, id) + [Spawn(r.value.pid)]
      && r.value.socketPath == SocketPath(cfg, id)
      && jailPaths.jailDir == JailDir(cfg, id)
      && jailPaths.kernelPath == JAILED_KERNEL_PATH
      && jailPaths.rootfsPath == JAILED_ROOTFS_PATH
      && jailPaths.socketPath == Some(SocketPath(cfg, id))
    // The sources are looked for, the jail is filled from them, the old socket removed, the log opened.
    ensures old(host.trace) <= host.trace
    ensures
      var binary, kernel, rootfs := old(jailPaths.firecrackerBinary), old(jailPaths.kernelPath), old(jailPaths.rootfsPath);
      var root := Path(cfg.vmsDir.rooted, cfg.vmsDir.segs + [FIRECRACKER, id, ROOT_DIR]);
      var t, steps := Since(old(host.trace), host.trace), JailSteps(root, binary, kernel, rootfs);
      && (if r == Err(NotPrepared) then Tried(steps, false, t)
          else steps + [Unlinked(SocketPath(cfg, id)), Opened(LogPath(cfg, id), r != Err(LogFailed))] <= t)
      && (r.Ok? ==> JailSupply(cfg, id, binary, kernel, rootfs, t))
      && StartReported(ErrorOf(r), SocketPath(cfg, id), 20000, host.clock - old(host.clock), t)
  {
    hide Confined, StartEffect, StartReported, Since, Tried, JailFiles, JailCommands, SocketPath, LogPath, VMDir, JailDir, Checking,
      JailSteps, JailSupply;
    PathsOfJail(cfg, id);
    ghost var s0, t0 := host.st, host.trace;
    assert s0.commands[|s0.commands|..] == [] && Confined(cfg, id, s0.nodes, s0.nodes) by {
      NothingIsConfined(cfg, id, s0.nodes);
    }
    NothingLaunched(cfg, id, s0, NotPrepared, s0);
    var binary, kernel, rootfs := jailPaths.firecrackerBinary, jailPaths.kernelPath, jailPaths.rootfsPath;
    ghost var root := Path(cfg.vmsDir.rooted, cfg.vmsDir.segs + [FIRECRACKER, id, ROOT_DIR]);
    ghost var checks, filling := Checking(binary, kernel, rootfs), Filling(root, root.Child(RUN_DIR), binary, kernel, rootfs);
    ChecksPrepare(binary, kernel, rootfs);
    StepsAre(root, binary, kernel, rootfs);
    var ok := VerifyFiles(host, binary, kernel, rootfs);
    ghost var t1 := host.trace;
    if !ok {
      NotPreparedReported(checks, SocketPath(cfg, id), 20000, Since(t0, t1));
      TriedMore(checks, filling, false, Since(t0, t1));
      return Err(NotPrepared);
    }

    // The chroot base is the parent of the VM directory.
    var chrootBaseDir := jailPaths.jailDir.(segs := jailPaths.jailDir.segs[..|jailPaths.jailDir.segs| - 1]);
    var jailIdDir := chrootBaseDir.Child(FIRECRACKER).Child(id);
    var jailRootDir := jailIdDir.Child(ROOT_DIR);
    var runDir := jailRootDir.Child(RUN_DIR);
    var chrootSocketPath := runDir.Child(SOCKET_FILE);
    var pid := EnterJail(host, cfg, id, jailRootDir, runDir, chrootSocketPath, jailPaths.logPath, binary, kernel, rootfs);
    JailedTrace(checks, filling, [Unlinked(chrootSocketPath), Opened(jailPaths.logPath, pid != Err(LogFailed))],
                ErrorOf(pid), chrootSocketPath, host.clock - old(host.clock), t0, t1, host.trace);
    if pid.Err? { return Err(pid.error); }
    JailStepsSupply(cfg, id, binary, kernel, rootfs, [Unlinked(chrootSocketPath), Opened(jailPaths.logPath, true)],
                    Since(t0, host.trace));
    jailPaths.kernelPath := JAILED_KERNEL_PATH;
    jailPaths.rootfsPath := JAILED_ROOTFS_PATH;
    jailPaths.socketPath := Some(chrootSocketPath);
    jailPaths.jailDir := jailIdDir;
    r := Ok(VMProcess(pid.value, chrootSocketPath));
  }

  /** Under the jailer: the parent of the VM directory, and the paths in the jail. */
  lemma PathsOfJail(cfg: Config, id: Bytes)
    requires cfg.useJailer
    ensures |VMDir(cfg, id).segs| > 0 && VMDir(cfg, id).(segs := VMDir(cfg, id).segs[..|VMDir(cfg, id).segs| - 1]) == cfg.vmsDir
    ensures JailDir(cfg, id) == cfg.vmsDir.Child(FIRECRACKER).Child(id)
    ensures JailDir(cfg, id).Child(ROOT_DIR) == Path(cfg.vmsDir.rooted, cfg.vmsDir.segs + [FIRECRACKER, id, ROOT_DIR])
    ensures SocketPath(cfg, id) == JailDir(cfg, id).Child(ROOT_DIR).Child(RUN_DIR).Child(SOCKET_FILE)
  {
  }

  function Checking(binary: Bytes, kernel: Bytes, rootfs: Bytes): seq<Act> {
    [Checked(binary, true), Checked(kernel, true), Checked(rootfs, true)]
  }

  /** The binary, the kernel and the root file system were copied to where the jail has them. */
  predicate JailSupply(cfg: Config, id: Bytes, binary: Bytes, kernel: Bytes, rootfs: Bytes, t: seq<Act>) {
    var root := cfg.vmsDir.segs + [FIRECRACKER, id, ROOT_DIR];
    && Copied(binary, Path(cfg.vmsDir.rooted, root + [FIRECRACKER]), true) in t
    && Copied(kernel, Path(cfg.vmsDir.rooted, root + [JAILED_KERNEL_FILE]), true) in t
    && Copied(rootfs, Path(cfg.vmsDir.rooted, root + [ROOTFS_FILE]), true) in t
  }

  /** All that prepares a jailed start: each step that may fail, in order. */
  function JailSteps(root: Path, binary: Bytes, kernel: Bytes, rootfs: Bytes): seq<Act> {
    Checking(binary, kernel, rootfs) + Filling(root, root.Child(RUN_DIR), binary, kernel, rootfs)
  }

  lemma JailStepsSupply(cfg: Config, id: Bytes, binary: Bytes, kernel: Bytes, rootfs: Bytes, opening: seq<Act>, t: seq<Act>)
    requires var root := Path(cfg.vmsDir.rooted, cfg.vmsDir.segs + [FIRECRACKER, id, ROOT_DIR]);
      JailSteps(root, binary, kernel, rootfs) + opening <= t
    ensures JailSupply(cfg, id, binary, kernel, rootfs, t)
  {
    var root := Path(cfg.vmsDir.rooted, cfg.vmsDir.segs + [FIRECRACKER, id, ROOT_DIR]);
    var filling := Filling(root, root.Child(RUN_DIR), binary, kernel, rootfs);
    assert t[5] == filling[2] && t[6] == filling[3] && t[7] == filling[4];
    assert filling[2] in t && filling[3] in t && filling[4] in t;
  }

  lemma StepsAre(root: Path, binary: Bytes, kernel: Bytes, rootfs: Bytes)
    ensures JailSteps(root, binary, kernel, rootfs) ==
      Checking(binary, kernel, rootfs) + Filling(root, root.Child(RUN_DIR), binary, kernel, rootfs)
  {
  }

  lemma ChecksPrepare(binary: Bytes, kernel: Bytes, rootfs: Bytes)
    ensures Plain(Checking(binary, kernel, rootfs)) && forall a :: a in Checking(binary, kernel, rootfs) ==> Preparatory(a)
  {
  }

  /** What filling a jail does: each step that may fail, in order. */
  function Filling(jailRootDir: Path, runDir: Path, binary: Bytes, kernel: Bytes, rootfs: Bytes): seq<Act> {
    [ Did(MkdirAll(jailRootDir), true), Did(MkdirAll(runDir), true),
      Copied(binary, jailRootDir.Child(FIRECRACKER), true),
      Copied(kernel, jailRootDir.Child(JAILED_KERNEL_FILE), true),
      Copied(rootfs, jailRootDir.Child(ROOTFS_FILE), true) ]
  }

  lemma JailedTrace(checks: seq<Act>, filling: seq<Act>, opening: seq<Act>, e: Option<StartError>, socketPath: Path, waited: int,
                    t0: seq<Act>, t1: seq<Act>, t2: seq<Act>)
    requires t0 <= t1 <= t2 && Tried(checks, true, Since(t0, t1)) && Plain(checks)
    requires if e == Some(NotPrepared) then Tried(filling, false, Since(t1, t2)) else filling + opening <= Since(t1, t2)
    requires StartReported(e, socketPath, 20000, waited, Since(t1, t2))
    ensures if e == Some(NotPrepared) then Tried(checks + filling, false, Since(t0, t2))
      else checks + filling + opening <= Since(t0, t2)
    ensures StartReported(e, socketPath, 20000, waited, Since(t0, t2))
  {
    var t := Since(t1, t2);
    SinceJoins(t0, t1, t2);
    ReportedWithin(e, socketPath, 20000, waited, waited, checks, t, []);
    assert checks + t + [] == Since(t0, t2);
    TriedMore(checks, filling, false, t);
    if e != Some(NotPrepared) { assert checks + filling + opening == checks + (filling + opening); }
  }

  /** The part of the jailed start that changes the host. */
  method EnterJail(host: Host, cfg: Config, id: Bytes, jailRootDir: Path, runDir: Path, socketPath: Path, logPath: Path,
                   binary: Bytes, kernel: Bytes, rootfs: Bytes)
    returns (r: Result<nat, StartError>)
    requires cfg.useJailer && socketPath == SocketPath(cfg, id) && logPath == LogPath(cfg, id)
    requires jailRootDir == JailDir(cfg, id).Child(ROOT_DIR) && runDir == jailRootDir.Child(RUN_DIR)
    modifies host`st, host`clock, host`trace, host`unattached
    ensures StartEffect(cfg, id, old(host.st), if r.Ok? then Ok(VMProcess(r.value, socketPath)) else Err(r.error), host.st)
    ensures host.st.logs == old(host.st.logs) && host.unattached == old(host.unattached)
    ensures r.Ok? ==>
      && JailFiles(cfg, id) + {socketPath, logPath} <= host.st.nodes
      && {jailRootDir.Child(FIRECRACKER), jailRootDir.Child(JAILED_KERNEL_FILE), jailRootDir.Child(ROOTFS_FILE)} <= host.st.nodes
      && host.st.commands == old(host.st.commands) + JailCommands(cfg, id) + [Spawn(r.value)]
    // The jail is filled, the old socket removed and the log opened, in this order; then comes the launch.
    ensures old(host.trace) <= host.trace
    ensures
      var t := Since(old(host.trace), host.trace);
      var filling :=
        [ Did(MkdirAll(jailRootDir), true), Did(MkdirAll(runDir), true),
          Copied(binary, jailRootDir.Child(FIRECRACKER), true),
          Copied(kernel, jailRootDir.Child(JAILED_KERNEL_FILE), true),
          Copied(rootfs, jailRootDir.Child(ROOTFS_FILE), true) ];
      && (if r == Err(NotPrepared) then Tried(filling, false, t)
          else filling + [Unlinked(socketPath), Opened(logPath, r != Err(LogFailed))] <= t)
      && StartReported(ErrorOf(r), socketPath, 20000, host.clock - old(host.clock), t)
  {
    hide Confined, StartEffect, Launched, SocketPath, LogPath, JailDir, VMDir, JailFiles, JailCommands, StartedOnly,
      StartReported, LaunchTrace, Since, Tried;
    FilesAreNoSockets(cfg, id);
    JailHolds(cfg, id);
    ghost var s0, t0, filling := host.st, host.trace, Filling(jailRootDir, runDir, binary, kernel, rootfs);
    var ok := FillJail(host, cfg, id, jailRootDir, runDir, binary, kernel, rootfs);
    ghost var s1, t1 := host.st, host.trace;
    if !ok {
      NothingLaunched(cfg, id, s0, NotPrepared, s1);
      FillingReported(jailRootDir, runDir, binary, kernel, rootfs, socketPath, Since(t0, t1));
      return Err(NotPrepared);
    }
    host.RemoveFile(socketPath);
    ok := host.OpenLog(logPath);
    ghost var s2, t2 := host.st, host.trace;
    OwnFilesConfined(cfg, id, s1.nodes, s2.nodes);
    ConfinedTransitive(cfg, id, s0.nodes, s1.nodes, s2.nodes);
    FillingIsPlain(jailRootDir, runDir, binary, kernel, rootfs);
    FilledTrace(filling, socketPath, logPath, ok, t0, t1, t2);
    if !ok {
      assert s2.commands[|s0.commands|..] == JailCommands(cfg, id);
      NothingLaunched(cfg, id, s0, LogFailed, s2);
      LogReported(socketPath, filling + [Unlinked(socketPath)], logPath, 20000, Since(t0, t2), host.clock - old(host.clock));
      return Err(LogFailed);
    }
    r := LaunchJailer(host, socketPath);
    LaunchReported(true, socketPath, 20000, r, host.clock - old(host.clock), t0, t2, host.trace);
    host.CloseUnattachedLog();  // deferred: on every exit from here on
    LaunchIsStart(cfg, id, s0, s2, r, host.st);
  }

  lemma FilledTrace(filling: seq<Act>, socketPath: Path, logPath: Path, ok: bool, t0: seq<Act>, t1: seq<Act>, t2: seq<Act>)
    requires t0 <= t1 && Tried(filling, true, Since(t0, t1)) && Plain(filling)
    requires t2 == t1 + [Unlinked(socketPath)] + [Opened(logPath, ok)]
    ensures t0 <= t2 && Since(t0, t2) == filling + [Unlinked(socketPath), Opened(logPath, ok)]
    ensures Since(t0, t2) == filling + [Unlinked(socketPath)] + [Opened(logPath, ok)]
    ensures Plain(filling + [Unlinked(socketPath)]) && Plain(Since(t0, t2))
  {
    SinceIs(t0, filling + [Unlinked(socketPath), Opened(logPath, ok)], t2);
  }

  lemma JailHolds(cfg: Config, id: Bytes)
    ensures var root := JailDir(cfg, id).Child(ROOT_DIR);
      {root.Child(FIRECRACKER), root.Child(JAILED_KERNEL_FILE), root.Child(ROOTFS_FILE)} <= JailFiles(cfg, id)
  {
  }

  lemma FillingIsPlain(jailRootDir: Path, runDir: Path, binary: Bytes, kernel: Bytes, rootfs: Bytes)
    ensures Plain(Filling(jailRootDir, runDir, binary, kernel, rootfs))
  {
  }

  lemma FillingReported(jailRootDir: Path, runDir: Path, binary: Bytes, kernel: Bytes, rootfs: Bytes, socketPath: Path, t: seq<Act>)
    requires Tried(Filling(jailRootDir, runDir, binary, kernel, rootfs), false, t)
    ensures StartReported(Some(NotPrepared), socketPath, 20000, 0, t)
  {
    NotPreparedReported(Filling(jailRootDir, runDir, binary, kernel, rootfs), socketPath, 20000, t);
  }

  /** Are the binary, the kernel and the root file system there, and files? */
  method VerifyFiles(host: Host, binary: Bytes, kernel: Bytes, rootfs: Bytes) returns (ok: bool)
    modifies host`trace
    ensures old(host.trace) <= host.trace
    ensures Tried(Checking(binary, kernel, rootfs), ok, Since(old(host.trace), host.trace))
  {
    hide Along, Tried, Since;
    ghost var t0, steps := host.trace, Checking(binary, kernel, rootfs);
    SetOut(steps, t0);
    ok := host.FileExists(binary);
    ghost var t1 := host.trace;
    OneStep(steps, 0, t0, t0, ok, t1);
    if !ok { return; }
    ok := host.FileExists(kernel);
    ghost var t2 := host.trace;
    OneStep(steps, 1, t0, t1, ok, t2);
    if !ok { return; }
    ok := host.FileExists(rootfs);
    OneStep(steps, 2, t0, t2, ok, host.trace);
  }

  lemma NothingIsConfined(cfg: Config, id: Bytes, n: set<Path>)
    ensures Confined(cfg, id, n, n)
  {
  }

  /** From `s` process `pid` was started, aged, and found dead, found listening, or killed. */
  lemma JailerLaunched(socketPath: Path, s: HostState, pid: nat, m: HostState, e: Option<StartError>, s': HostState)
    requires pid !in s.procs && m.procs.Keys == s.procs.Keys + {pid}
    requires m == s.(procs := m.procs, nodes := m.nodes, commands := s.commands + [Spawn(pid)])
    requires Aged(s.procs[pid := Proc(Running, [])], m.procs)
    requires match e
      case None => s' == m && m.nodes == s.nodes + {socketPath}
      case Some(DiedAtOnce) => s' == m && m.nodes == s.nodes && !Alive(m, pid)
      case Some(SocketTimeout) =>
        && s' == m.(procs := s'.procs, commands := m.commands + [Kill(pid)]) && m.nodes == s.nodes
        && s'.procs.Keys == m.procs.Keys && AgedBut(m.procs, s'.procs, pid) && !Alive(s', pid)
      case _ => false
    ensures Launched(false, socketPath, s, if e.None? then Ok(pid) else Err(e.value), s')
  {
    assert AgedProc(Proc(Running, []), m.procs[pid]);
    forall k | k in s.procs ensures AgedProc(s.procs[k], s'.procs[k]) {
      assert AgedProc(s.procs[k], m.procs[k]) && (e == Some(SocketTimeout) ==> AgedProc(m.procs[k], s'.procs[k]));
    }
    if e.Some? { assert LaunchIssued(s, e.value, pid, s'); }
  }

  /** The part of the jailed start that runs once the jail is filled. */
  method LaunchJailer(host: Host, socketPath: Path) returns (r: Result<nat, StartError>)
    modifies host`st, host`clock, host`trace
    ensures Launched(false, socketPath, old(host.st), r, host.st)
    ensures old(host.trace) <= host.trace && host.clock >= old(host.clock)
    ensures LaunchTrace(true, socketPath, 20000, r, Since(old(host.trace), host.trace))
    ensures r.Ok? ==> [Did(Spawn(r.value), true), Slept(500), Probed(r.value, true)] <= Since(old(host.trace), host.trace)
    ensures r == Err(SocketTimeout) ==> host.clock >= old(host.clock) + 20000
  {
    hide LaunchTrace, Waited, Since, Launched, Aged, AgedBut;
    ghost var s, t0 := host.st, host.trace;
    var ok, pid := host.StartProcess();
    if !ok {
      NothingStarted(false, socketPath, s);
      NotLaunched(true, socketPath, 20000, t0, host.trace);
      return Err(SpawnFailed);
    }
    ghost var s2 := host.st;
    host.Sleep(500);
    ghost var s3 := host.st;
    ok := host.SignalZero(pid);
    ghost var s4, t1 := host.st, host.trace;
    AgedTransitive(s2.procs, s3.procs, s4.procs);
    assert t1 == t0 + Opening(true, pid, ok);
    if !ok {
      JailerLaunched(socketPath, s, pid, s4, Some(DiedAtOnce), s4);
      JailerDied(socketPath, 20000, pid, t0, t1);
      return Err(DiedAtOnce);
    }
    var ready, polls := WaitForSocket(host, socketPath, 20000);
    ghost var s5, t2 := host.st, host.trace;
    AgedTransitive(s2.procs, s4.procs, s5.procs);
    if !ready {
      var gone := host.SignalKill(pid);
      JailerLaunched(socketPath, s, pid, s5, Some(SocketTimeout), host.st);
      LaunchWaited(true, socketPath, 20000, pid, false, polls, gone, t0, t1, t2, host.trace);
      return Err(SocketTimeout);
    }
    JailerLaunched(socketPath, s, pid, s5, None, s5);
    LaunchWaited(true, socketPath, 20000, pid, true, polls, false, t0, t1, t2, t2);
    SinceJoins(t0, t1, t2);
    SinceIs(t0, [Did(Spawn(pid), true), Slept(500), Probed(pid, true)], t1);
    r := Ok(pid);
  }

  lemma NothingStarted(keepsLog: bool, socketPath: Path, s: HostState)
    ensures Launched(keepsLog, socketPath, s, Err(SpawnFailed), s)
  {
    assert LaunchIssued(s, SpawnFailed, 0, s);
  }

  lemma JailerDied(socketPath: Path, timeout: nat, pid: nat, t0: seq<Act>, t1: seq<Act>)
    requires t1 == t0 + Opening(true, pid, false)
    ensures t0 <= t1 && LaunchTrace(true, socketPath, timeout, Err(DiedAtOnce), Since(t0, t1))
  {
    SinceIs(t0, Opening(true, pid, false), t1);
  }

  /** Makes the jail's directories and copies the binary, the kernel and the root file system into it. */
  method FillJail(host: Host, cfg: Config, id: Bytes, jailRootDir: Path, runDir: Path, binary: Bytes, kernel: Bytes, rootfs: Bytes)
    returns (ok: bool)
    requires cfg.useJailer
    requires jailRootDir == JailDir(cfg, id).Child(ROOT_DIR) && runDir == jailRootDir.Child(RUN_DIR)
    modifies host`st, host`trace
    ensures OnlyFiles(old(host.st), host.st)
    ensures old(host.st.nodes) <= host.st.nodes && Confined(cfg, id, old(host.st.nodes), host.st.nodes)
    ensures !ok ==> host.st.commands[|old(host.st.commands)|..] <= JailCommands(cfg, id)
    ensures ok ==> JailFiles(cfg, id) <= host.st.nodes && host.st.commands == old(host.st.commands) + JailCommands(cfg, id)
    // The binary, the kernel and the root file system are copied in, and nothing after a step that failed.
    ensures ok ==>
      {jailRootDir.Child(FIRECRACKER), jailRootDir.Child(JAILED_KERNEL_FILE), jailRootDir.Child(ROOTFS_FILE)} <= host.st.nodes
    ensures old(host.trace) <= host.trace
    ensures
      var t := Since(old(host.trace), host.trace);
      Tried([ Did(MkdirAll(jailRootDir), true), Did(MkdirAll(runDir), true),
              Copied(binary, jailRootDir.Child(FIRECRACKER), true),
              Copied(kernel, jailRootDir.Child(JAILED_KERNEL_FILE), true),
              Copied(rootfs, jailRootDir.Child(ROOTFS_FILE), true) ], ok, t)
  {
    hide Along, Tried, Since, Confined, InTrees, JailDir, JailFiles, JailCommands;
    ghost var c0, t0, n0 := host.st.commands, host.trace, host.st.nodes;
    ghost var steps := Filling(jailRootDir, runDir, binary, kernel, rootfs);
    InsideJail(cfg, id);
    SetOut(steps, t0);
    ok := host.RunMkdirAll(jailRootDir);
    ghost var t1, n1 := host.trace, host.st.nodes;
    OneStep(steps, 0, t0, t0, ok, t1);
    MadeInside(cfg, id, n0, n0, jailRootDir, n1);
    assert host.st.commands[|c0|..] == [MkdirAll(jailRootDir)];
    if !ok { return; }
    ok := host.RunMkdirAll(runDir);
    ghost var t2, n2 := host.trace, host.st.nodes;
    OneStep(steps, 1, t0, t1, ok, t2);
    MadeInside(cfg, id, n0, n1, runDir, n2);
    assert host.st.commands == c0 + JailCommands(cfg, id) && host.st.commands[|c0|..] == JailCommands(cfg, id);
    if !ok { return; }
    ok := CopyIntoJail(host, jailRootDir, binary, kernel, rootfs);
    FilledInside(cfg, id, jailRootDir, n0, n2, host.st.nodes);
    FilledSteps(jailRootDir, runDir, binary, kernel, rootfs, ok, t0, t2, host.trace);
  }

  /** The part of filling that copies. */
  method CopyIntoJail(host: Host, jailRootDir: Path, binary: Bytes, kernel: Bytes, rootfs: Bytes) returns (ok: bool)
    modifies host`st, host`trace
    ensures host.st == old(host.st).(nodes := host.st.nodes) && old(host.st.nodes) <= host.st.nodes
    ensures
      var files := {jailRootDir.Child(FIRECRACKER), jailRootDir.Child(JAILED_KERNEL_FILE), jailRootDir.Child(ROOTFS_FILE)};
      host.st.nodes <= old(host.st.nodes) + files && (ok ==> files <= host.st.nodes)
    ensures old(host.trace) <= host.trace
    ensures Tried([ Copied(binary, jailRootDir.Child(FIRECRACKER), true),
                    Copied(kernel, jailRootDir.Child(JAILED_KERNEL_FILE), true),
                    Copied(rootfs, jailRootDir.Child(ROOTFS_FILE), true) ], ok, Since(old(host.trace), host.trace))
  {
    hide Along, Tried, Since;
    ghost var t0 := host.trace;
    ghost var steps :=
      [ Copied(binary, jailRootDir.Child(FIRECRACKER), true),
        Copied(kernel, jailRootDir.Child(JAILED_KERNEL_FILE), true),
        Copied(rootfs, jailRootDir.Child(ROOTFS_FILE), true) ];
    SetOut(steps, t0);
    ok := host.CopyFile(binary, jailRootDir.Child(FIRECRACKER));
    ghost var t1 := host.trace;
    OneStep(steps, 0, t0, t0, ok, t1);
    if !ok { return; }
    ok := host.CopyFile(kernel, jailRootDir.Child(JAILED_KERNEL_FILE));
    ghost var t2 := host.trace;
    OneStep(steps, 1, t0, t1, ok, t2);
    if !ok { return; }
    ok := host.CopyFile(rootfs, jailRootDir.Child(ROOTFS_FILE));
    OneStep(steps, 2, t0, t2, ok, host.trace);
  }

  /** Two directories were made and then copying was tried: that is filling the jail. */
  lemma FilledSteps(jailRootDir: Path, runDir: Path, binary: Bytes, kernel: Bytes, rootfs: Bytes, ok: bool,
                    t0: seq<Act>, t2: seq<Act>, t3: seq<Act>)
    requires Along(Filling(jailRootDir, runDir, binary, kernel, rootfs), 2, t0, t2) && t2 <= t3
    requires Tried([ Copied(binary, jailRootDir.Child(FIRECRACKER), true),
                     Copied(kernel, jailRootDir.Child(JAILED_KERNEL_FILE), true),
                     Copied(rootfs, jailRootDir.Child(ROOTFS_FILE), true) ], ok, Since(t2, t3))
    ensures t0 <= t3 && Tried(Filling(jailRootDir, runDir, binary, kernel, rootfs), ok, Since(t0, t3))
  {
    var dirs := [Did(MkdirAll(jailRootDir), true), Did(MkdirAll(runDir), true)];
    var copies :=
      [ Copied(binary, jailRootDir.Child(FIRECRACKER), true),
        Copied(kernel, jailRootDir.Child(JAILED_KERNEL_FILE), true),
        Copied(rootfs, jailRootDir.Child(ROOTFS_FILE), true) ];
    assert Filling(jailRootDir, runDir, binary, kernel, rootfs) == dirs + copies;
    assert Filling(jailRootDir, runDir, binary, kernel, rootfs)[..2] == dirs;
    SinceIs(t0, dirs, t2);
    SinceJoins(t0, t2, t3);
    TriedMore(dirs, copies, ok, Since(t2, t3));
  }

  /** Files put into the jail's root directory stay within the VM's trees. */
  lemma FilledInside(cfg: Config, id: Bytes, jailRootDir: Path, n0: set<Path>, n: set<Path>, n': set<Path>)
    requires cfg.useJailer && jailRootDir == JailDir(cfg, id).Child(ROOT_DIR) && Confined(cfg, id, n0, n) && n <= n'
    requires n' <= n + {jailRootDir.Child(FIRECRACKER), jailRootDir.Child(JAILED_KERNEL_FILE), jailRootDir.Child(ROOTFS_FILE)}
    ensures Confined(cfg, id, n0, n')
  {
    InsideJail(cfg, id);
    hide InTrees, AboveTrees;
  }

  lemma InsideJail(cfg: Config, id: Bytes)
    requires cfg.useJailer
    ensures var root := JailDir(cfg, id).Child(ROOT_DIR);
      && Under(JailDir(cfg, id), JailDir(cfg, id)) && Under(JailDir(cfg, id), root)
      && InTrees(cfg, id, root)
      && (forall f: Bytes :: InTrees(cfg, id, root.Child(f)))
      && Under(JailDir(cfg, id), root.Child(RUN_DIR))
      && JailFiles(cfg, id) ==
           {JailDir(cfg, id), root.Child(RUN_DIR), root.Child(FIRECRACKER), root.Child(JAILED_KERNEL_FILE), root.Child(ROOTFS_FILE)}
      && JailCommands(cfg, id) == [MkdirAll(root), MkdirAll(root.Child(RUN_DIR))]
    ensures forall n: set<Path> :: Confined(cfg, id, n, n)
  {
    var jail := JailDir(cfg, id);
    var root := jail.Child(ROOT_DIR);
    assert root.segs[..|jail.segs|] == jail.segs;
    forall f: Bytes ensures Under(jail, root.Child(f)) {
      assert root.Child(f).segs[..|jail.segs|] == jail.segs;
    }
  }

  /** Making `path`, with or without its ancestors, stays within the trees `path` is in. */
  lemma MadeInside(cfg: Config, id: Bytes, n0: set<Path>, n: set<Path>, path: Path, n': set<Path>)
    requires Confined(cfg, id, n0, n) && InTrees(cfg, id, path)
    requires forall p :: p in n ==> p in n'
    requires forall p :: p in n' ==> p in n || Under(p, path)
    ensures Confined(cfg, id, n0, n')
  {
    forall p | Under(p, path) ensures InTrees(cfg, id, p) || AboveTrees(cfg, id, p) {
      if Under(VMDir(cfg, id), path) {
        AncestorsOf(p, VMDir(cfg, id), path);
      } else {
        AncestorsOf(p, JailDir(cfg, id), path);
      }
    }
  }

  lemma AncestorsOf(p: Path, root: Path, path: Path)
    requires Under(p, path) && Under(root, path)
    ensures Under(root, p) || Under(p, root)
  {
    if |p.segs| <= |root.segs| {
      assert p.segs == path.segs[..|p.segs|] == root.segs[..|p.segs|];
    } else {
      assert root.segs == path.segs[..|root.segs|] == p.segs[..|root.segs|];
    }
  }

  /** What stopping or killing `p` may change: that process, its socket and its log handle. */
  ghost predicate EndEffect(p: VMProcess, s: HostState, s': HostState) {
    && s' == s.(procs := s'.procs, nodes := s'.nodes, logs := s'.logs, commands := s'.commands)
    && s'.procs.Keys == s.procs.Keys
    && AgedBut(s.procs, s'.procs, p.pid)
    && (s'.nodes == s.nodes || s'.nodes == s.nodes - {p.socketPath})
    && (s'.logs == s.logs || s'.logs == s.logs - {p.pid})
    && !Alive(s', p.pid)
    && (p.pid in s.procs ==> s'.procs[p.pid].calls == s.procs[p.pid].calls)
  }

  /**
   * Reports an error exactly when the process had already finished; it then closes nothing and
   * removes nothing. Either way the process is not running afterwards.
   */
  method KillProcess(host: Host, p: VMProcess) returns (ok: bool)
    requires p.pid in host.st.procs
    modifies host`st, host`clock, host`trace
    ensures EndEffect(p, old(host.st), host.st)
    ensures host.st.commands == old(host.st.commands) + [Kill(p.pid)]
    ensures ok ==> Alive(old(host.st), p.pid) && host.st.procs[p.pid].status == Signalled
    ensures host.st.logs == if ok then old(host.st.logs) - {p.pid} else old(host.st.logs)
    ensures !ok ==> AgedProc(old(host.st.procs)[p.pid], host.st.procs[p.pid]) && host.st.nodes == old(host.st.nodes)
    ensures host.clock >= old(host.clock)
    ensures host.trace == old(host.trace) +
      if ok then [Did(Kill(p.pid), true), Slept(100), Unlinked(p.socketPath)] else [Did(Kill(p.pid), false)]
  {
    ok := host.SignalKill(p.pid);
    if !ok { return; }
    ghost var s1 := host.st;
    host.Sleep(100);
    AgedIsAgedBut(s1.procs, host.st.procs, p.pid);
    AgedButTransitive(old(host.st.procs), s1.procs, host.st.procs, p.pid);
    assert AgedProc(s1.procs[p.pid], host.st.procs[p.pid]);
    host.CloseLog(p.pid);
    host.RemoveFile(p.socketPath);
  }

  lemma AgedIsAgedBut(p: map<nat, Proc>, q: map<nat, Proc>, pid: nat)
    requires Aged(p, q)
    ensures AgedBut(p, q, pid)
  {
    if pid in p { assert AgedProc(p[pid], q[pid]); }
  }

  /** SIGTERM, a pause, and SIGKILL if that did not do it; never an error, and always a dead process. */
  method StopProcess(host: Host, p: VMProcess)
    requires p.pid in host.st.procs
    modifies host`st, host`clock, host`trace
    ensures EndEffect(p, old(host.st), host.st)
    ensures host.st.logs == old(host.st.logs) - {p.pid}
    ensures host.st.commands == old(host.st.commands) + [Term(p.pid)]
         || host.st.commands == old(host.st.commands) + [Term(p.pid), Kill(p.pid)]
    ensures old(host.trace) <= host.trace
    ensures
      var t, pid := Since(old(host.trace), host.trace), p.pid;
      || t == [Did(Term(pid), false), Unlinked(p.socketPath)]
      || t == [Did(Term(pid), true), Slept(2000), Probed(pid, false), Unlinked(p.socketPath)]
      || exists gone :: t ==
           [Did(Term(pid), true), Slept(2000), Probed(pid, true), Did(Kill(pid), gone), Slept(200), Unlinked(p.socketPath)]
  {
    var ok := host.SignalTerm(p.pid);
    if ok {
      EndAfterTerm(host, p);
    }
    host.CloseLog(p.pid);
    host.RemoveFile(p.socketPath);
  }

  /** The part of Stop that runs once SIGTERM was delivered. */
  method EndAfterTerm(host: Host, p: VMProcess)
    requires p.pid in host.st.procs
    modifies host`st, host`clock, host`trace
    ensures host.st == old(host.st).(procs := host.st.procs, commands := host.st.commands)
    ensures host.st.procs.Keys == old(host.st.procs).Keys && AgedBut(old(host.st.procs), host.st.procs, p.pid)
    ensures host.st.procs[p.pid].calls == old(host.st.procs)[p.pid].calls
    ensures !Alive(host.st, p.pid)
    ensures host.st.commands == old(host.st.commands) || host.st.commands == old(host.st.commands) + [Kill(p.pid)]
    ensures
      || host.trace == old(host.trace) + [Slept(2000), Probed(p.pid, false)]
      || exists gone :: host.trace == old(host.trace) + [Slept(2000), Probed(p.pid, true), Did(Kill(p.pid), gone), Slept(200)]
  {
    host.Sleep(2000);
    ghost var s1 := host.st;
    AgedIsAgedBut(old(host.st.procs), s1.procs, p.pid);
    var running := IsRunning(host, p);
    ghost var s2 := host.st;
    AgedIsAgedBut(s1.procs, s2.procs, p.pid);
    AgedButTransitive(old(host.st.procs), s1.procs, s2.procs, p.pid);
    assert AgedProc(old(host.st.procs)[p.pid], s1.procs[p.pid]) && AgedProc(s1.procs[p.pid], s2.procs[p.pid]);
    if running {
      var gone := host.SignalKill(p.pid);
      ghost var s3 := host.st;
      AgedButTransitive(old(host.st.procs), s2.procs, s3.procs, p.pid);
      host.Sleep(200);
      AgedIsAgedBut(s3.procs, host.st.procs, p.pid);
      AgedButTransitive(old(host.st.procs), s3.procs, host.st.procs, p.pid);
      assert AgedProc(s3.procs[p.pid], host.st.procs[p.pid]);
      assert host.trace == old(host.trace) + [Slept(2000), Probed(p.pid, true), Did(Kill(p.pid), gone), Slept(200)];
    }
  }

  method IsRunning(host: Host, p: VMProcess) returns (running: bool)
    requires p.pid in host.st.procs
    modifies host`st, host`trace
    ensures host.trace == old(host.trace) + [Probed(p.pid, running)]
    ensures host.st == old(host.st).(procs := host.st.procs)
    ensures host.st.procs.Keys == old(host.st.procs).Keys && Aged(old(host.st.procs), host.st.procs)
    ensures running == Alive(host.st, p.pid)
  {
    running := host.SignalZero(p.pid);
  }
}

/** The VM manager: the registry and the operations on it. */
module FirecrackerManager {
  import opened GoStrings
  import opened GoPath
  import opened Environment
  import opened Layout
  import opened Network
  import opened Storage
  import opened Process
  import opened Agent
  import opened Rollback
  import opened Acquire

  class VM {
    const info: VMInfo
    const process: VMProcess
    const tapDevice: Bytes
    var state: VMState

    constructor (info: VMInfo, process: VMProcess, tapDevice: Bytes)
      ensures this.info == info && this.process == process && this.tapDevice == tapDevice
      ensures state == RUNNING
    {
      this.info, this.process, this.tapDevice, this.state := info, process, tapDevice, RUNNING;
    }

    function Rec(): VMRec
      reads this
    {
      VMRec(info, state, process, tapDevice)
    }
  }

  /**
   * A forced stop asks for nothing and starts with SIGKILL. Any other stop asks once, first of all, for a
   * shutdown. If that was accepted its first signal is SIGTERM, two seconds later, and SIGKILL comes only
   * when that was delivered and the process was found alive after two more; if it was not accepted, the
   * only signal is SIGKILL.
   */
  predicate Graceful(force: bool, pid: nat, t: seq<Act>) {
    && |t| >= 1
    && (force ==> Requests(t) == [] && t[0].Did? && t[0].cmd == Kill(pid))
    && (!force ==>
          && |t| >= 2 && t[0].Asked? && t[0].pid == pid && t[0].call == SendCtrlAltDel && Requests(t) == [t[0]]
          && if t[0].ok then
               && |t| >= 3 && t[1] == Slept(2000) && t[2].Did? && t[2].cmd == Term(pid)
               && forall k :: 0 <= k < |t| && t[k].Did? && t[k].cmd == Kill(pid) ==>
                    k == 5 && t[2].ok && t[3] == Slept(2000) && t[4] == Probed(pid, true)
             else
               t[1].Did? && t[1].cmd == Kill(pid) && forall k :: 2 <= k < |t| ==> !t[k].Did?)
  }

  // ------------------------------------------------- a rolled-back creation changed nothing

  ghost predicate AllUndone(cfg: Config, id: Bytes, stack: seq<Cleanup>, h: HostState) {
    forall i :: 0 <= i < |stack| ==> Undone(cfg, id, stack[i], h)
  }

  lemma UndoneTap(cfg: Config, id: Bytes, stack: seq<Cleanup>, h: HostState)
    requires AllUndone(cfg, id, stack, h)
    ensures DeleteTap(TapName(cfg, id)) in stack ==> (TapName(cfg, id) in h.taps ==> TapName(cfg, id) in h.stuck)
    ensures stack != [] && stack[0] == StorageCleanup(cfg) ==> TreesGoneOrResidue(cfg, id, h)
    ensures forall k :: k in Kills(stack) ==> !Alive(h, k)
  {
    if DeleteTap(TapName(cfg, id)) in stack {
      var i :| 0 <= i < |stack| && stack[i] == DeleteTap(TapName(cfg, id));
      assert Undone(cfg, id, stack[i], h);
    }
    if stack != [] { assert Undone(cfg, id, stack[0], h); }
    forall k | k in Kills(stack) ensures !Alive(h, k) {
      var i :| 0 <= i < |stack| && stack[i].KillStarted? && stack[i].process.pid == k;
      assert Undone(cfg, id, stack[i], h);
    }
  }

  /** The states of a creation that failed past its storage stage: before, at the failure, after the loop. */
  ghost predicate RolledBack(cfg: Config, id: Bytes, stack: seq<Cleanup>, h: HostState, m: HostState, h': HostState) {
    && Covered(cfg, id, stack, h, m)
    && UndoFrame(cfg, id, stack, m, h')
    && AllUndone(cfg, id, stack, h')
    && h.stuck <= h.taps && LogsOk(h) && LogsOk(h')
    && h.commands <= m.commands && h'.commands == m.commands + UndoCommands(cfg, id, stack)
  }

  lemma RolledBackRestores(cfg: Config, id: Bytes, stack: seq<Cleanup>, h: HostState, m: HostState, h': HostState)
    requires RolledBack(cfg, id, stack, h, m, h')
    ensures h.taps <= h'.taps <= h.taps + {TapName(cfg, id)} && h'.stuck == h.stuck + (h'.taps - h.taps)
    ensures DeleteTap(TapName(cfg, id)) !in stack && m.taps == h.taps ==> h'.taps == h.taps
    ensures h'.taps != h.taps ==> LinkDelete(TapName(cfg, id)) in h'.commands
    ensures Aged(h.procs, h'.procs) && NothingLeftRunning(h.procs, h'.procs)
    ensures h.logs <= h'.logs <= m.logs
    ensures forall k :: k in h'.logs && k !in h.logs ==> k !in h.procs && k in h'.procs && h'.procs[k].status.Exited?
    ensures Confined(cfg, id, h.nodes, h'.nodes) && ResidueOnlyOf(cfg, id, h, h') && TreesGoneOrResidue(cfg, id, h')
    ensures h.commands <= h'.commands
  {
    UndoneTap(cfg, id, stack, h');
    RolledBackTaps(TapName(cfg, id), stack, h, m, h');
    RolledBackProcs(stack, h, m, h');
    RolledBackTrees(cfg, id, h, m, h');
    if DeleteTap(TapName(cfg, id)) in stack { UndoIssuesDelete(cfg, id, stack, TapName(cfg, id)); }
  }

  /** What was issued, up to the failure and in the rollback. */
  lemma RollbackIssued(cfg: Config, req: CreateRequest, r: Result<Acquisition, CreateError>, e: CreateError,
                       h: HostState, m: HostState, h': HostState)
    requires Acquired(cfg, req, h, r, m)
    requires if r.Err? then e == r.error else e.ApiFailed? && r.value.process.pid !in h.procs && r.value.process.pid in h'.procs
    requires h'.commands == m.commands + UndoCommands(cfg, req.vmId, StackFor(cfg, req.vmId, r))
    ensures RollbackSequence(cfg, req.vmId, e, h, h')
  {
    var id, c := req.vmId, m.commands[|h.commands|..];
    assert m.commands == h.commands + c;
    if r.Err? {
      var pid: nat :| IssuedBefore(cfg, id, e, pid, c);
      UndoIsTeardown(cfg, id, r, pid);
      assert IssuedBefore(cfg, id, e, pid, c) && h'.commands == h.commands + c + RollingBack(cfg, id, e, pid);
    } else {
      var pid := r.value.process.pid;
      UndoIsTeardown(cfg, id, r, pid);
      assert c == Acquiring(cfg, id, pid);
      assert IssuedBefore(cfg, id, e, pid, c) && h'.commands == h.commands + c + RollingBack(cfg, id, e, pid);
    }
  }

  /** A creation that failed while preparing storage. */
  lemma StorageFailureStep(cfg: Config, a: AgentState, req: CreateRequest, e: CreateError, a': AgentState)
    requires req.vmId !in a.vms && e.StorageFailed? && LogsOk(a.host)
    requires Acquired(cfg, req, a.host, Err(e), a'.host)
    requires a'.vms == a.vms
    requires a'.abandoned == if e.prepare == MkdirFailed then a.abandoned else a.abandoned + {req.vmId}
    ensures CreateFailed(cfg, a, req, e, a')
  {
    RollbackIssued(cfg, req, Err(e), e, a.host, a'.host, a'.host);
    hide RollbackSequence, IssuedBefore;
  }

  /** A creation that failed at a later stage and was rolled back. */
  lemma LateFailureStep(cfg: Config, a: AgentState, req: CreateRequest, r: Result<Acquisition, CreateError>,
                        e: CreateError, m0: HostState, m: HostState, a': AgentState)
    requires req.vmId !in a.vms && a'.vms == a.vms && a'.abandoned == a.abandoned - {req.vmId}
    requires Acquired(cfg, req, a.host, r, m0) && m == m0.(procs := m.procs)
    requires if r.Err? then e == r.error && !e.StorageFailed? else e.ApiFailed?
    requires RolledBack(cfg, req.vmId, StackFor(cfg, req.vmId, r), a.host, m, a'.host)
    ensures CreateFailed(cfg, a, req, e, a')
  {
    var id := req.vmId;
    RolledBackRestores(cfg, id, StackFor(cfg, id, r), a.host, m, a'.host);
    KillsOfStackFor(cfg, id, r);
    if r.Ok? {
      var pid := r.value.process.pid;
      assert pid in Kills(StackFor(cfg, id, r));
      assert pid !in a.host.procs && pid in a'.host.procs;
    }
    RollbackIssued(cfg, req, r, e, a.host, m0, a'.host);
    hide RollbackSequence, IssuedBefore, StackFor, RolledBack;
  }

  /** The configuration requests do not change what has to be rolled back. */
  lemma CoveredWhileConfiguring(cfg: Config, req: CreateRequest, h: HostState, q: Acquisition, m0: HostState, m: HostState)
    requires Acquired(cfg, req, h, Ok(q), m0) && h.stuck <= h.taps && LogsOk(h)
    requires m == m0.(procs := m.procs) && m.procs.Keys == m0.procs.Keys
    requires AgedBut(m0.procs, m.procs, q.process.pid)
    ensures Covered(cfg, req.vmId, StackFor(cfg, req.vmId, Ok(q)), h, m)
  {
    AcquiredCovers(cfg, req, h, Ok(q), m0);
    forall k | k in h.procs ensures AgedProc(h.procs[k], m.procs[k]) {
      assert AgedProc(h.procs[k], m0.procs[k]) && AgedProc(m0.procs[k], m.procs[k]);
    }
  }

  /** The ids on record as abandoned after an acquisition that ended with `r`. */
  function Abandoned(abandoned: set<Bytes>, id: Bytes, r: Result<Acquisition, CreateError>): set<Bytes> {
    if r.Ok? || !r.error.StorageFailed? then abandoned - {id}
    else if r.error.prepare != MkdirFailed then abandoned + {id}
    else abandoned
  }

  /** `m` is where a creation stands that acquired `r` from `h` and may have sent requests since. */
  ghost predicate Standing(cfg: Config, req: CreateRequest, h: HostState, r: Result<Acquisition, CreateError>, m0: HostState, m: HostState) {
    && Acquired(cfg, req, h, r, m0)
    && (r.Err? ==> m == m0)
    && m == m0.(procs := m.procs) && m.procs.Keys == m0.procs.Keys
    && (r.Ok? ==> AgedBut(m0.procs, m.procs, r.value.process.pid))
  }

  lemma StandingAtOnce(cfg: Config, req: CreateRequest, h: HostState, r: Result<Acquisition, CreateError>, m0: HostState)
    requires Acquired(cfg, req, h, r, m0)
    ensures Standing(cfg, req, h, r, m0, m0)
  {
  }

  /** Some requests were sent to `pid`, and time passed. */
  ghost predicate Sending(pid: nat, h0: HostState, h: HostState) {
    && h == h0.(procs := h.procs) && h.procs.Keys == h0.procs.Keys && pid in h0.procs
    && AgedBut(h0.procs, h.procs, pid)
    && (h.procs[pid].status.Signalled? ==> h0.procs[pid].status.Signalled?)
  }

  lemma NothingSent(pid: nat, h: HostState)
    requires pid in h.procs
    ensures Sending(pid, h, h)
  {
  }

  lemma StandingConfigured(cfg: Config, req: CreateRequest, h: HostState, q: Acquisition, m0: HostState, m: HostState)
    requires Acquired(cfg, req, h, Ok(q), m0) && Sending(q.process.pid, m0, m)
    requires !m0.procs[q.process.pid].status.Signalled?
    ensures Standing(cfg, req, h, Ok(q), m0, m)
    ensures q.process.pid in m.procs && !m.procs[q.process.pid].status.Signalled?
  {
  }

  /** Either way of failing, once the loop has run. */
  lemma FailureStep(cfg: Config, foreign: set<Bytes>, a: AgentState, req: CreateRequest,
                    r: Result<Acquisition, CreateError>, e: CreateError, m0: HostState, m: HostState, a': AgentState)
    requires OkId(cfg, req.vmId) && Inv(cfg, foreign, a) && req.vmId !in a.vms && a'.vms == a.vms
    requires a'.abandoned == Abandoned(a.abandoned, req.vmId, r)
    requires Standing(cfg, req, a.host, r, m0, m)
    requires if r.Err? then e == r.error else e.ApiFailed?
    requires UndoFrame(cfg, req.vmId, StackFor(cfg, req.vmId, r), m, a'.host)
    requires AllUndone(cfg, req.vmId, StackFor(cfg, req.vmId, r), a'.host)
    requires a'.host.commands == m.commands + UndoCommands(cfg, req.vmId, StackFor(cfg, req.vmId, r))
    requires StackFor(cfg, req.vmId, r) == [] ==> a'.host == m
    requires LogsOk(a'.host)
    ensures CreateFailed(cfg, a, req, e, a') && Inv(cfg, foreign, a')
  {
    assert TapsConserved(foreign, a) && LogsOk(a.host);
    if r.Err? && r.error.StorageFailed? {
      StorageFailureStep(cfg, a, req, e, a');
    } else {
      if r.Ok? {
        CoveredWhileConfiguring(cfg, req, a.host, r.value, m0, m);
      } else {
        AcquiredCovers(cfg, req, a.host, r, m0);
      }
      LateFailureStep(cfg, a, req, r, e, m0, m, a');
    }
    CreateFailedKeepsInv(cfg, foreign, a, req, e, a');
  }

  lemma SuccessStep(cfg: Config, a: AgentState, req: CreateRequest, q: Acquisition, rec: VMRec, m0: HostState, a': AgentState)
    requires req.vmId !in a.vms && Acquired(cfg, req, a.host, Ok(q), m0)
    requires a'.vms == a.vms[req.vmId := rec] && a'.abandoned == a.abandoned - {req.vmId}
    requires rec == VMRec(InfoOf(req, q.storage.socketPath), RUNNING, q.process, q.tap)
    requires a'.host == m0.(procs := a'.host.procs) && a'.host.procs.Keys == m0.procs.Keys
    requires AgedBut(m0.procs, a'.host.procs, q.process.pid)
    requires a'.host.procs[q.process.pid].calls == ConfigCalls(cfg, req)
    requires !a'.host.procs[q.process.pid].status.Signalled?
    ensures CreateOk(cfg, a, req, rec, a')
  {
    SocketInside(cfg, req.vmId);
    forall k | k in a.host.procs ensures AgedProc(a.host.procs[k], a'.host.procs[k]) {
      assert AgedProc(a.host.procs[k], m0.procs[k]) && AgedProc(m0.procs[k], a'.host.procs[k]);
    }
  }

  lemma CommitStep(cfg: Config, foreign: set<Bytes>, a: AgentState, req: CreateRequest, q: Acquisition,
                   rec: VMRec, m0: HostState, a': AgentState)
    requires OkId(cfg, req.vmId) && Inv(cfg, foreign, a) && req.vmId !in a.vms
    requires Standing(cfg, req, a.host, Ok(q), m0, a'.host)
    requires a'.vms == a.vms[req.vmId := rec] && a'.abandoned == Abandoned(a.abandoned, req.vmId, Ok(q))
    requires rec == VMRec(InfoOf(req, q.storage.socketPath), RUNNING, q.process, q.tap)
    requires a'.host.procs[q.process.pid].calls == ConfigCalls(cfg, req)
    requires !a'.host.procs[q.process.pid].status.Signalled?
    ensures CreateOk(cfg, a, req, rec, a') && Inv(cfg, foreign, a')
  {
    SuccessStep(cfg, a, req, q, rec, m0, a');
    CreateOkKeepsInv(cfg, foreign, a, req, rec, a');
  }

  /** The stack is fit to be run wherever the creation stands. */
  lemma StackFit(cfg: Config, req: CreateRequest, h: HostState, r: Result<Acquisition, CreateError>, m0: HostState, m: HostState)
    requires Standing(cfg, req, h, r, m0, m) && LogsOk(h)
    requires r.Ok? ==> !m.procs[r.value.process.pid].status.Signalled?
    ensures LogsOk(m)
    ensures var stack := StackFor(cfg, req.vmId, r);
      && StackAbout(cfg, req.vmId, stack)
      && forall i :: 0 <= i < |stack| && stack[i].KillStarted? ==> stack[i].process.pid in m.procs
  {
    SocketInside(cfg, req.vmId);
    forall k | k in m.logs ensures k in m.procs && !m.procs[k].status.Signalled? {
      if k in h.procs { assert AgedProc(h.procs[k], m0.procs[k]); }
      if k in h.procs && r.Ok? { assert AgedProc(m0.procs[k], m.procs[k]); }
    }
  }

  lemma StandingPaths(cfg: Config, req: CreateRequest, h: HostState, q: Acquisition, m0: HostState, m: HostState)
    requires Standing(cfg, req, h, Ok(q), m0, m)
    ensures q.storage.socketPath == SocketPath(cfg, req.vmId)
  {
  }

  lemma LogsKnown(cfg: Config, foreign: set<Bytes>, a: AgentState)
    requires Inv(cfg, foreign, a)
    ensures LogsOk(a.host) && a.host.logs <= a.host.procs.Keys
  {
  }

  lemma AcquiredReady(cfg: Config, req: CreateRequest, h: HostState, q: Acquisition, m: HostState)
    requires Acquired(cfg, req, h, Ok(q), m)
    ensures AcquiredPaths(cfg, req, q)
    ensures q.process.pid in m.procs && m.procs[q.process.pid].calls == []
    ensures !m.procs[q.process.pid].status.Signalled?
  {
  }

  lemma AlreadyThere(cfg: Config, a: AgentState, req: CreateRequest)
    requires req.vmId in a.vms
    ensures CreateFailed(cfg, a, req, AlreadyExists, a)
  {
    assert IssuedBefore(cfg, req.vmId, AlreadyExists, 0, []);
    assert a.host.commands == a.host.commands + [] + RollingBack(cfg, req.vmId, AlreadyExists, 0);
  }

  /** The configuration requests as they are sent. */
  function Asking(cfg: Config, req: CreateRequest, q: Acquisition): seq<Act> {
    [ Asked(q.process.pid, SetBootSource(q.storage.kernelPath, BootArgs(cfg, req.ipAddress)), true),
      Asked(q.process.pid, SetMachineConfig(req.vcpuCount, req.memoryMb, false), true),
      Asked(q.process.pid, AddDrive("rootfs", q.storage.rootfsPath, true, false), true),
      Asked(q.process.pid, AddNetworkInterface("eth0", q.tap, q.mac), true),
      Asked(q.process.pid, InstanceStart, true) ]
  }

  // ------------------------------------------------------------- what a creation goes back to

  /** How building a VM ended. */
  function Failure(acquired: Result<Acquisition, CreateError>, failed: Option<nat>): Option<CreateError> {
    if acquired.Err? then Some(acquired.error) else if failed.Some? then Some(ApiFailed(failed.value)) else None
  }

  /**
   * What the host had reported when a creation ended: on success five requests and everything the VM is
   * supplied with; on failure the report that it failed for. A failed request is the last one.
   */
  ghost predicate CreationReported(cfg: Config, req: CreateRequest, e: Option<CreateError>, waited: int, t: seq<Act>) {
    var q := Requests(t);
    match e
    case None =>
      && |q| == 5 && (forall k :: 0 <= k < 5 ==> q[k].ok)
      && Supplied(cfg, req, t) && Did(LinkMaster(TapName(cfg, req.vmId), cfg.bridgeName), true) in t
    case Some(ApiFailed(i)) => i < 5 && |q| == i + 1 && !q[i].ok && forall k :: 0 <= k < i ==> q[k].ok
    case Some(error) => q == [] && BlamedOn(cfg, req, error, waited, t)
  }

  lemma ErrorsOfAcquisition(cfg: Config, req: CreateRequest, h: HostState, e: CreateError, m: HostState)
    requires Acquired(cfg, req, h, Err(e), m)
    ensures !e.AlreadyExists? && !e.ApiFailed?
  {
  }

  lemma AlreadyReported(cfg: Config, req: CreateRequest, t: seq<Act>)
    ensures CreationReported(cfg, req, Some(AlreadyExists), 0, Since(t, t))
  {
  }

  lemma NotAcquiredReported(cfg: Config, req: CreateRequest, e: CreateError, waited: int, t: seq<Act>)
    requires AcquisitionReported(cfg, req, Err(e), waited, t)
    ensures CreationReported(cfg, req, Some(e), waited, t)
  {
    RequestsOf(t);
    hide TapName, VMDir, Default, StartReported;
  }

  lemma ConfiguredReported(cfg: Config, req: CreateRequest, q: Acquisition, failed: Option<nat>, waited: int,
                           t: seq<Act>, asked: seq<Act>)
    requires AcquisitionReported(cfg, req, Ok(q), waited, t)
    requires Tried(Asking(cfg, req, q), failed.None?, asked) && (failed.Some? ==> failed.value == |asked| - 1)
    ensures CreationReported(cfg, req, Failure(Ok(q), failed), waited, t + asked)
  {
    hide Tried, Asking, BlamedOn, Supplied, TapName, Requests;
    SuppliedStays(cfg, req, t, asked);
    TriedRequests(cfg, req, q, failed.None?, asked);
    RequestsOf(t);
    RequestsOf(asked);
    RequestsJoin(t, asked);
  }

  lemma SuppliedStays(cfg: Config, req: CreateRequest, t: seq<Act>, after: seq<Act>)
    ensures Supplied(cfg, req, t) ==> Supplied(cfg, req, t + after)
  {
    hide Default, VMDir;
  }

  lemma TriedRequests(cfg: Config, req: CreateRequest, q: Acquisition, ok: bool, asked: seq<Act>)
    requires Tried(Asking(cfg, req, q), ok, asked)
    ensures forall k :: 0 <= k < |asked| ==> asked[k].Asked? && (asked[k].ok <==> ok || k < |asked| - 1)
    ensures if ok then |asked| == 5 else 0 < |asked| <= 5
  {
    var steps := Asking(cfg, req, q);
    assert |steps| == 5 && forall k :: 0 <= k < 5 ==> steps[k].Asked? && steps[k].ok by { hide BootArgs; }
    hide Asking;
  }

  lemma AbortReported(cfg: Config, req: CreateRequest, e: CreateError, waited: int, waited': int,
                      t0: seq<Act>, t1: seq<Act>, t2: seq<Act>)
    requires t0 <= t1 <= t2 && waited <= waited'
    requires CreationReported(cfg, req, Some(e), waited, Since(t0, t1)) && Plain(Since(t1, t2))
    requires !e.AlreadyExists?
    ensures t0 <= t2 && CreationReported(cfg, req, Some(e), waited', Since(t0, t2))
  {
    var t, after := Since(t0, t1), Since(t1, t2);
    SinceJoins(t0, t1, t2);
    RequestsOf(after);
    RequestsJoin(t, after);
    if !e.ApiFailed? { BlameStays(cfg, req, e, waited, waited', t, after); }
  }

  lemma BlameStays(cfg: Config, req: CreateRequest, e: CreateError, waited: int, waited': int, t: seq<Act>, after: seq<Act>)
    requires BlamedOn(cfg, req, e, waited, t) && Plain(after) && waited <= waited' && !e.AlreadyExists?
    ensures BlamedOn(cfg, req, e, waited', t + after)
  {
    hide TapName, VMDir, Default, StartReported;
    if e.StartFailed? {
      ReportedWithin(Some(e.start), SocketPath(cfg, req.vmId), if cfg.useJailer then 20000 else 5000, waited, waited', [], t, after);
      assert [] + t + after == t + after;
    }
  }

  lemma AllConfigured(cfg: Config, req: CreateRequest, q: Acquisition, before: seq<ApiCall>, calls: seq<ApiCall>)
    requires calls == before + [SetBootSource(q.storage.kernelPath, BootArgs(cfg, req.ipAddress))]
      + [SetMachineConfig(req.vcpuCount, req.memoryMb, false)] + [AddDrive("rootfs", q.storage.rootfsPath, true, false)]
      + [AddNetworkInterface("eth0", q.tap, q.mac)] + [InstanceStart]
    ensures before == [] && AcquiredPaths(cfg, req, q) ==> calls == ConfigCalls(cfg, req)
  {
  }

  class Manager {
    const cfg: Config
    const host: Host
    var vms: map<Bytes, VM>
    ghost const foreign: set<Bytes>   // the devices found at start-up
    ghost var abandoned: set<Bytes>

    ghost function State(): AgentState
      reads this, host, vms.Values
    {
      AgentState(map id | id in vms :: vms[id].Rec(), abandoned, host.st)
    }

    /** Every record is an object of its own. */
    ghost predicate Separate()
      reads this
    {
      forall x, y :: x in vms && y in vms && x != y ==> vms[x] != vms[y]
    }

    ghost predicate Valid()
      reads this, host, vms.Values
    {
      Separate() && Inv(cfg, foreign, State())
    }

    constructor (cfg: Config, host: Host, ghost abandoned: set<Bytes>)
      requires Init(cfg, host.st.taps, AgentState(map[], abandoned, host.st))
      ensures Valid() && this.cfg == cfg && this.host == host
      ensures State() == AgentState(map[], abandoned, host.st) && foreign == host.st.taps
    {
      this.cfg, this.host, this.vms := cfg, host, map[];
      this.foreign, this.abandoned := host.st.taps, abandoned;
      new;
      assert State().vms == map[];
      InitInv(cfg, foreign, State());
    }

    /** The five configuration requests, stopping at the first that fails. */
    method Configure(req: CreateRequest, q: Acquisition) returns (failed: Option<nat>)
      requires q.process.pid in host.st.procs
      modifies host`st, host`trace
      ensures Sending(q.process.pid, old(host.st), host.st) && q.process.pid in host.st.procs
      ensures failed.None? && AcquiredPaths(cfg, req, q) && old(host.st.procs)[q.process.pid].calls == [] ==>
        host.st.procs[q.process.pid].calls == ConfigCalls(cfg, req)
      // It failed exactly at the request that reported failure.
      ensures old(host.trace) <= host.trace
      ensures
        var pid, t := q.process.pid, Since(old(host.trace), host.trace);
        && Tried([ Asked(pid, SetBootSource(q.storage.kernelPath, BootArgs(cfg, req.ipAddress)), true),
                   Asked(pid, SetMachineConfig(req.vcpuCount, req.memoryMb, false), true),
                   Asked(pid, AddDrive("rootfs", q.storage.rootfsPath, true, false), true),
                   Asked(pid, AddNetworkInterface("eth0", q.tap, q.mac), true),
                   Asked(pid, InstanceStart, true) ], failed.None?, t)
        && (failed.Some? ==> failed.value == |t| - 1)
    {
      hide Along, Tried, Since, Sending, ConfigCalls, BootArgs, AcquiredPaths;
      var pid := q.process.pid;
      ghost var h0, t0, steps := host.st, host.trace, Asking(cfg, req, q);
      SetOut(steps, t0);
      NothingSent(pid, h0);
      var ok := Ask(pid, SetBootSource(q.storage.kernelPath, BootArgs(cfg, req.ipAddress)), steps, 0, h0, t0);
      if !ok { return Some(0); }
      ok := Ask(pid, SetMachineConfig(req.vcpuCount, req.memoryMb, false), steps, 1, h0, t0);
      if !ok { return Some(1); }
      ok := Ask(pid, AddDrive("rootfs", q.storage.rootfsPath, true, false), steps, 2, h0, t0);
      if !ok { return Some(2); }
      ok := Ask(pid, AddNetworkInterface("eth0", q.tap, q.mac), steps, 3, h0, t0);
      if !ok { return Some(3); }
      ok := Ask(pid, InstanceStart, steps, 4, h0, t0);
      if !ok { return Some(4); }
      AllConfigured(cfg, req, q, h0.procs[pid].calls, host.st.procs[pid].calls);
      failed := None;
    }

    /** One request, the `k`-th of these. */
    method Ask(pid: nat, call: ApiCall, ghost steps: seq<Act>, ghost k: nat, ghost h0: HostState, ghost t0: seq<Act>)
        returns (ok: bool)
      requires Sending(pid, h0, host.st) && Along(steps, k, t0, host.trace)
      requires k < |steps| && steps[k] == Asked(pid, call, true)
      modifies host`st, host`trace
      ensures Sending(pid, h0, host.st) && pid in old(host.st.procs) && pid in host.st.procs
      ensures ok ==> host.st.procs[pid].calls == old(host.st.procs)[pid].calls + [call]
      ensures t0 <= host.trace
      ensures ok ==> Along(steps, k + 1, t0, host.trace) && (k + 1 == |steps| ==> Tried(steps, true, Since(t0, host.trace)))
      ensures !ok ==> Tried(steps, false, Since(t0, host.trace)) && |Since(t0, host.trace)| == k + 1
    {
      hide Along, Tried, Since;
      ghost var p, t := host.st.procs, host.trace;
      ok := host.Put(pid, call);
      OneStep(steps, k, t0, t, ok, host.trace);
      AgedButTransitive(h0.procs, p, host.st.procs, pid);
    }

    /** The part of CreateVM that can fail: acquisition in either mode, then configuration. */
    method Build(req: CreateRequest)
        returns (acquired: Result<Acquisition, CreateError>, failed: Option<nat>, cleanups: seq<Cleanup>, ghost m0: HostState)
      requires host.st.logs <= host.st.procs.Keys
      modifies host
      ensures Standing(cfg, req, old(host.st), acquired, m0, host.st) && cleanups == StackFor(cfg, req.vmId, acquired)
      ensures host.unattached == old(host.unattached)
      ensures acquired.Ok? ==>
        && acquired.value.process.pid in host.st.procs && !host.st.procs[acquired.value.process.pid].status.Signalled?
        && (failed.None? ==> host.st.procs[acquired.value.process.pid].calls == ConfigCalls(cfg, req))
      ensures acquired.Err? ==> failed.None? && !acquired.error.AlreadyExists?
      ensures old(host.trace) <= host.trace
      ensures CreationReported(cfg, req, Failure(acquired, failed), host.clock - old(host.clock), Since(old(host.trace), host.trace))
    {
      hide Acquired, Standing, StackFor, ConfigCalls, AcquiredPaths, AcquisitionReported, CreationReported, Sending,
        BootArgs, Tried, Since;
      ghost var h0, t0 := host.st, host.trace;
      if cfg.useJailer {
        acquired, cleanups := AcquireJailed(host, cfg, req);
      } else {
        acquired, cleanups := AcquireDirect(host, cfg, req);
      }
      m0 := host.st;
      ghost var t1 := host.trace;
      failed := None;
      StandingAtOnce(cfg, req, h0, acquired, m0);
      if acquired.Err? {
        ErrorsOfAcquisition(cfg, req, h0, acquired.error, m0);
        NotAcquiredReported(cfg, req, acquired.error, host.clock - old(host.clock), Since(t0, t1));
        return;
      }
      AcquiredReady(cfg, req, h0, acquired.value, m0);
      failed := Configure(req, acquired.value);
      StandingConfigured(cfg, req, h0, acquired.value, m0, host.st);
      SinceJoins(t0, t1, host.trace);
      ConfiguredReported(cfg, req, acquired.value, failed, host.clock - old(host.clock), Since(t0, t1), Since(t1, host.trace));
    }

    method CreateVM(req: CreateRequest) returns (r: Result<VMInfo, CreateError>)
      requires Valid() && OkId(cfg, req.vmId)
      modifies this`vms, this`abandoned, host
      ensures Valid() && host.unattached == old(host.unattached)
      ensures r.Ok? ==>
        && req.vmId in vms && fresh(vms[req.vmId]) && r.value == vms[req.vmId].info
        && r.value == VMInfo(req.vmId, req.vcpuCount, req.memoryMb, req.ipAddress, SocketPath(cfg, req.vmId), req.metadata)
        && CreateOk(cfg, old(State()), req, vms[req.vmId].Rec(), State())
        && host.st.procs[vms[req.vmId].process.pid].calls == ConfigCalls(cfg, req)
      ensures r.Err? ==> vms == old(vms) && CreateFailed(cfg, old(State()), req, r.error, State())
      ensures old(host.trace) <= host.trace
      ensures CreationReported(cfg, req, ErrorOf(r), host.clock - old(host.clock), Since(old(host.trace), host.trace))
    {
      hide Inv, Acquired, Standing, StackFor, CreateOk, CreateFailed, ConfigCalls, SocketPath, CreationReported, Since;
      ghost var a, t0 := State(), host.trace;
      if req.vmId in vms {
        AlreadyThere(cfg, a, req);
        AlreadyReported(cfg, req, t0);
        return Err(AlreadyExists);
      }
      var committed := false;
      LogsKnown(cfg, foreign, a);
      ghost var m0;
      var acquired, failed, cleanups;
      acquired, failed, cleanups, m0 := Build(req);
      ghost var t1, waited := host.trace, host.clock - old(host.clock);
      assert a == State().(host := a.host);
      if acquired.Ok? && failed.None? {
        Register(req, acquired.value, a, m0);
        committed := true;
      }
      if !committed {
        var error := if acquired.Err? then acquired.error else ApiFailed(failed.value);
        Abort(req, acquired, error, cleanups, a, m0);
        AbortReported(cfg, req, error, waited, host.clock - old(host.clock), t0, t1, host.trace);
        r := Err(error);
      } else {
        r := Ok(vms[req.vmId].info);
      }
    }

    /** Puts the configured instance into the registry. */
    method Register(req: CreateRequest, q: Acquisition, ghost a: AgentState, ghost m0: HostState)
      requires Separate() && OkId(cfg, req.vmId) && req.vmId !in vms
      requires a == State().(host := a.host) && Inv(cfg, foreign, a)
      requires Standing(cfg, req, a.host, Ok(q), m0, host.st)
      requires host.st.procs[q.process.pid].calls == ConfigCalls(cfg, req)
      requires !host.st.procs[q.process.pid].status.Signalled?
      modifies this`vms, this`abandoned
      ensures Valid()
      ensures req.vmId in vms && fresh(vms[req.vmId])
      ensures vms[req.vmId].info ==
        VMInfo(req.vmId, req.vcpuCount, req.memoryMb, req.ipAddress, SocketPath(cfg, req.vmId), req.metadata)
      ensures vms[req.vmId].process == q.process
      ensures CreateOk(cfg, a, req, vms[req.vmId].Rec(), State())
    {
      hide Inv, Standing, Abandoned, CreateOk, ConfigCalls, SocketPath;
      StandingPaths(cfg, req, a.host, q, m0, host.st);
      var info := VMInfo(req.vmId, req.vcpuCount, req.memoryMb, req.ipAddress, q.storage.socketPath, req.metadata);
      var vm := new VM(info, q.process, q.tap);
      vms := vms[req.vmId := vm];
      abandoned := Abandoned(abandoned, req.vmId, Ok(q));
      ghost var a' := AgentState(a.vms[req.vmId := vm.Rec()], abandoned, host.st);
      assert State().vms == a'.vms;
      CommitStep(cfg, foreign, a, req, q, vm.Rec(), m0, a');
    }

    /** The deferred cleanup of a creation that did not commit. */
    method Abort(req: CreateRequest, ghost acquired: Result<Acquisition, CreateError>, ghost error: CreateError,
                 cleanups: seq<Cleanup>, ghost a: AgentState, ghost m0: HostState)
      requires Separate() && OkId(cfg, req.vmId) && req.vmId !in vms
      requires a == State().(host := a.host) && Inv(cfg, foreign, a)
      requires Standing(cfg, req, a.host, acquired, m0, host.st) && cleanups == StackFor(cfg, req.vmId, acquired)
      requires if acquired.Err? then error == acquired.error else error.ApiFailed?
      requires acquired.Ok? ==> !host.st.procs[acquired.value.process.pid].status.Signalled?
      modifies this`abandoned, host`st, host`clock, host`trace
      ensures Valid()
      ensures CreateFailed(cfg, a, req, error, State())
      ensures old(host.trace) <= host.trace && Plain(Since(old(host.trace), host.trace)) && host.clock >= old(host.clock)
      ensures host.unattached == old(host.unattached)
    {
      hide Inv, Acquired, UndoFrame, AllUndone, CreateFailed;
      ghost var m := host.st;
      LogsKnown(cfg, foreign, a);
      StackFit(cfg, req, a.host, acquired, m0, m);
      RunCleanups(host, cfg, req.vmId, cleanups);
      abandoned := Abandoned(abandoned, req.vmId, acquired);
      ghost var a' := AgentState(a.vms, abandoned, host.st);
      assert State().vms == a'.vms;
      FailureStep(cfg, foreign, a, req, acquired, error, m0, m, a');
    }

    /**
     * Ends the VM's process and stores STOPPED, as one call with nothing in between; the two lock
     * sections and what can happen between them are the subject of modules Lifecycle and StaleStops.
     */
    method StopVM(id: Bytes, force: bool) returns (ok: bool)
      requires Valid()
      modifies host, set v | v in vms.Values && v == Lookup(id)
      ensures Valid() && vms == old(vms)
      ensures StopStep(old(State()), id, force, ok, State())
      ensures old(host.trace) <= host.trace && (!ok ==> host.trace == old(host.trace))
      ensures ok <==> id in vms
      ensures ok ==> Graceful(force, vms[id].process.pid, Since(old(host.trace), host.trace))
    {
      hide Inv, Stopped, StopTrace, Since, Graceful;
      if id !in vms {
        return false;
      }
      var vm := vms[id];
      ghost var a := State();
      RecordKnown(cfg, foreign, a, id);
      EndVM(host, vm.process, force);
      StopsAreGraceful(force, vm.process, Since(old(host.trace), host.trace));
      vm.state := STOPPED;
      ok := true;
      ghost var a' := AgentState(a.vms[id := a.vms[id].(state := STOPPED)], abandoned, host.st);
      assert State().vms == a'.vms;
      StopKeepsInv(cfg, foreign, a, id, force, true, a');
    }

    ghost function Lookup(id: Bytes): VM?
      reads this
    {
      if id in vms then vms[id] else null
    }

    method DeleteVM(id: Bytes) returns (ok: bool)
      requires Valid()
      modifies this`vms, host
      ensures Valid()
      ensures DeleteStep(cfg, old(State()), id, ok, State())
      ensures vms == if ok then old(vms) - {id} else old(vms)
      // Whatever each step reported, all of them were taken, in this order.
      ensures ok ==>
        var pid, tap := old(vms[id].process.pid), cfg.tapPrefix + [0x2D] + if |id| > 8 then id[..8] else id;
        host.st.commands == old(host.st.commands) + [Kill(pid), LinkDelete(tap)] +
          (if cfg.useJailer then [RemoveAll(Path(cfg.vmsDir.rooted, cfg.vmsDir.segs + [FIRECRACKER, id]))] else []) +
          [RemoveAll(Path(cfg.vmsDir.rooted, cfg.vmsDir.segs + [id]))]
    {
      hide Inv, TornDown, Teardown, Acquiring;
      if id !in vms {
        return false;
      }
      var vm := vms[id];
      ghost var a := State();
      RecordKnown(cfg, foreign, a, id);
      TearDown(host, cfg, id, vm.process, vm.tapDevice, vm.Rec());
      TheSequences(cfg, id, vm.process.pid);
      vms := vms - {id};
      ok := true;
      ghost var a' := AgentState(a.vms - {id}, abandoned, host.st);
      assert State().vms == a'.vms;
      DeleteKeepsInv(cfg, foreign, a, id, true, a');
    }

    /** A Firecracker VM runs from its creation on; starting a stopped one is refused. */
    method StartVM(id: Bytes) returns (ok: bool)
      requires Valid()
      modifies host
      ensures Valid() && vms == old(vms)
      ensures StartStep(old(State()), id, ok, State())
      ensures ok <==> id in vms && vms[id].process.pid in host.st.procs && host.st.procs[vms[id].process.pid].status == Running
    {
      hide Inv;
      ghost var a := State();
      if id !in vms {
        NothingHappened(a);
        return false;
      }
      RecordKnown(cfg, foreign, a, id);
      ok := IsRunning(host, vms[id].process);
      ghost var a' := AgentState(a.vms, abandoned, host.st);
      assert State().vms == a'.vms;
      AgingKeepsInv(cfg, foreign, a, a');
    }

    /** resolveVMState: a finished process means STOPPED, otherwise the stored state. */
    method ResolveVMState(vm: VM) returns (state: VMState)
      requires vm.process.pid in host.st.procs
      modifies host
      ensures host.st == old(host.st).(procs := host.st.procs)
      ensures host.st.procs.Keys == old(host.st.procs).Keys && Aged(old(host.st.procs), host.st.procs)
      ensures state == if !Alive(host.st, vm.process.pid) then STOPPED else vm.state
    {
      var running := IsRunning(host, vm.process);
      if !running {
        return STOPPED;
      }
      state := vm.state;
    }

    method GetVM(id: Bytes) returns (r: Option<(VMInfo, VMState)>)
      requires Valid()
      modifies host
      ensures Valid() && vms == old(vms)
      ensures GetStep(old(State()), id, r, State())
      ensures r.Some? ==>
        && id in vms && r.value.0 == vms[id].info && vms[id].process.pid in host.st.procs
        && r.value.1 == if host.st.procs[vms[id].process.pid].status == Running then RUNNING else STOPPED
    {
      hide Inv;
      ghost var a := State();
      if id !in vms {
        NothingHappened(a);
        return None;
      }
      RecordKnown(cfg, foreign, a, id);
      var state := ResolveVMState(vms[id]);
      r := Some((vms[id].info, state));
      ghost var a' := AgentState(a.vms, abandoned, host.st);
      assert State().vms == a'.vms;
      AgingKeepsInv(cfg, foreign, a, a');
      RecordKnown(cfg, foreign, a', id);
    }

    /** Every registered VM once; a process may end between two entries. */
    method ListVMs() returns (list: map<Bytes, (VMInfo, VMState)>)
      requires Valid()
      modifies host
      ensures Valid() && vms == old(vms)
      ensures ListStep(old(State()), list, State())
    {
      hide Inv;
      ghost var a := State();
      list := map[];
      var todo := vms.Keys;
      NothingHappened(a);
      while todo != {}
        invariant vms == old(vms) && todo <= vms.Keys && list.Keys == vms.Keys - todo
        invariant State().vms == a.vms && State() == AgentState(a.vms, abandoned, host.st)
        invariant abandoned == old(abandoned)
        invariant Inv(cfg, foreign, State())
        invariant OnlyAged(a, State())
        invariant forall id :: id in list ==> EntryOk(a, list, id, State())
        decreases todo
      {
        var id :| id in todo;
        ghost var b := State();
        RecordKnown(cfg, foreign, b, id);
        var state := ResolveVMState(vms[id]);
        ghost var b' := AgentState(a.vms, abandoned, host.st);
        assert State().vms == b'.vms;
        AgingKeepsInv(cfg, foreign, b, b');
        RecordKnown(cfg, foreign, b', id);
        list := list[id := (vms[id].info, state)];
        OnlyAgedTransitive(a, b, b');
        forall x | x in list ensures EntryOk(a, list, x, b') {
          if x == id { ReportedLater(a, b', id); } else { ReportedLater(b, b', x); }
        }
        todo := todo - {id};
      }
    }
  }

  // ---------------------------------------------------------------- proofs about the above

  /** One entry of the list was true when it was made. */
  ghost predicate EntryOk(a: AgentState, list: map<Bytes, (VMInfo, VMState)>, id: Bytes, a': AgentState)
    requires id in list
  {
    && id in a.vms && id in a'.vms
    && list[id].0 == a.vms[id].info
    && (list[id].1 == RUNNING ==> Reported(a, id) == RUNNING)
    && (list[id].1 == STOPPED ==> Reported(a', id) == STOPPED)
  }

  /** A VM that is reported stopped stays so. */
  lemma ReportedLater(a: AgentState, a': AgentState, id: Bytes)
    requires OnlyAged(a, a') && id in a.vms
    ensures Reported(a', id) == RUNNING ==> Reported(a, id) == RUNNING
  {
    if Alive(a'.host, a.vms[id].process.pid) {
      assert AgedProc(a.host.procs[a.vms[id].process.pid], a'.host.procs[a.vms[id].process.pid]);
    }
  }

  lemma OnlyAgedTransitive(a: AgentState, b: AgentState, c: AgentState)
    requires OnlyAged(a, b) && OnlyAged(b, c)
    ensures OnlyAged(a, c)
  {
    AgedTransitive(a.host.procs, b.host.procs, c.host.procs);
  }

  lemma NothingHappened(a: AgentState)
    ensures OnlyAged(a, a)
  {
  }

  /** What the invariant says about one registered VM. */
  lemma RecordKnown(cfg: Config, foreign: set<Bytes>, a: AgentState, id: Bytes)
    requires Inv(cfg, foreign, a) && id in a.vms
    ensures OkId(cfg, id) && a.vms[id].tap == TapName(cfg, id)
    ensures InTrees(cfg, id, a.vms[id].process.socketPath) && !IsRoot(cfg, id, a.vms[id].process.socketPath)
    ensures a.vms[id].process.pid in a.host.procs
    ensures a.host.procs[a.vms[id].process.pid].status.Signalled? ==> a.vms[id].process.pid !in a.host.logs
    ensures a.vms[id].state.STOPPED? ==> Reported(a, id) == STOPPED
  {
    assert RecordOk(cfg, id, a.vms[id], a.host);
  }

  /** All that a stop does: unless forced it asks first, and kills at once only if that reported failure. */
  predicate StopTrace(force: bool, p: VMProcess, t: seq<Act>) {
    var pid, sock := p.pid, p.socketPath;
    if force then
      t == [Did(Kill(pid), true), Slept(100), Unlinked(sock)] || t == [Did(Kill(pid), false)]
    else
      || t == [Asked(pid, SendCtrlAltDel, false), Did(Kill(pid), true), Slept(100), Unlinked(sock)]
      || t == [Asked(pid, SendCtrlAltDel, false), Did(Kill(pid), false)]
      || t == [Asked(pid, SendCtrlAltDel, true), Slept(2000), Did(Term(pid), false), Unlinked(sock)]
      || t == [ Asked(pid, SendCtrlAltDel, true), Slept(2000), Did(Term(pid), true), Slept(2000),
                Probed(pid, false), Unlinked(sock) ]
      || (|t| == 8 && t[5].Did? && t ==
           [ Asked(pid, SendCtrlAltDel, true), Slept(2000), Did(Term(pid), true), Slept(2000),
             Probed(pid, true), Did(Kill(pid), t[5].ok), Slept(200), Unlinked(sock) ])
  }

  lemma StopsAreGraceful(force: bool, p: VMProcess, t: seq<Act>)
    requires StopTrace(force, p, t)
    ensures Graceful(force, p.pid, t)
  {
    hide Requests;
    OneRequest(force, p, t);
    RequestsAtFirst(t);
    if !force && t[0].ok {
      AcceptedStop(p, t);
      hide StopTrace;
    }
  }

  lemma OneRequest(force: bool, p: VMProcess, t: seq<Act>)
    requires StopTrace(force, p, t)
    ensures t != [] && forall k :: 1 <= k < |t| ==> !t[k].Asked?
  {
  }

  lemma AcceptedStop(p: VMProcess, t: seq<Act>)
    requires StopTrace(false, p, t) && t[0].Asked? && t[0].ok
    ensures |t| >= 3 && t[1] == Slept(2000) && t[2].Did? && t[2].cmd == Term(p.pid)
    ensures forall k :: 0 <= k < |t| && t[k].Did? && t[k].cmd == Kill(p.pid) ==>
      k == 5 && t[2].ok && t[3] == Slept(2000) && t[4] == Probed(p.pid, true)
  {
  }

  /** The unlocked part of StopVM: end the process, gracefully unless forced or the guest cannot be reached. */
  method EndVM(host: Host, p: VMProcess, force: bool)
    requires p.pid in host.st.procs
    requires host.st.procs[p.pid].status.Signalled? ==> p.pid !in host.st.logs
    modifies host
    ensures Stopped(force, p, old(host.st), host.st)
    ensures old(host.trace) <= host.trace && StopTrace(force, p, Since(old(host.trace), host.trace))
  {
    hide Stopped, EndEffect, Since, AgedBut, Aged;
    ghost var h, t0 := host.st, host.trace;
    if force {
      AgedAtOnce(h.procs);
      AgedIsAgedBut(h.procs, h.procs, p.pid);
      var gone := KillProcess(host, p);
      EndIsStopped(true, p, h, h, host.st);
      SinceIs(t0, if gone then [Did(Kill(p.pid), true), Slept(100), Unlinked(p.socketPath)] else [Did(Kill(p.pid), false)],
              host.trace);
    } else {
      var sent := host.Put(p.pid, SendCtrlAltDel);
      ghost var m := host.st;
      if !sent {
        var gone := KillProcess(host, p);
        EndIsStopped(false, p, h, m, host.st);
        SinceIs(t0, [Asked(p.pid, SendCtrlAltDel, false)] +
                    if gone then [Did(Kill(p.pid), true), Slept(100), Unlinked(p.socketPath)] else [Did(Kill(p.pid), false)],
                host.trace);
      } else {
        host.Sleep(2000);
        ghost var k, t1 := host.st, host.trace;
        AgedIsAgedBut(m.procs, k.procs, p.pid);
        AgedButTransitive(h.procs, m.procs, k.procs, p.pid);
        assert AgedProc(m.procs[p.pid], k.procs[p.pid]);
        StopProcess(host, p);
        EndIsStopped(false, p, h, k, host.st);
        SinceIs(t0, [Asked(p.pid, SendCtrlAltDel, true), Slept(2000)], t1);
        SinceJoins(t0, t1, host.trace);
      }
    }
  }

  /** From `h` at most a Ctrl-Alt-Del and time led to `m`, and ending the process led to `h'`. */
  lemma EndIsStopped(force: bool, p: VMProcess, h: HostState, m: HostState, h': HostState)
    requires p.pid in h.procs && (h.procs[p.pid].status.Signalled? ==> p.pid !in h.logs)
    requires m == h.(procs := m.procs) && m.procs.Keys == h.procs.Keys && AgedBut(h.procs, m.procs, p.pid)
    requires m.procs[p.pid].status.Signalled? ==> h.procs[p.pid].status.Signalled?
    requires m.procs[p.pid].calls == h.procs[p.pid].calls
      || (!force && m.procs[p.pid].calls == h.procs[p.pid].calls + [SendCtrlAltDel])
    requires EndEffect(p, m, h')
    requires h.commands <= h'.commands && StopCommands(force, p.pid, h'.commands[|h.commands|..])
    requires p.pid in h'.logs ==> AgedProc(m.procs[p.pid], h'.procs[p.pid])
    ensures Stopped(force, p, h, h')
  {
    AgedButTransitive(h.procs, m.procs, h'.procs, p.pid);
  }

  /** The locked part of DeleteVM: every step runs, whatever the ones before it reported. */
  method TearDown(host: Host, cfg: Config, id: Bytes, process: VMProcess, tap: Bytes, ghost rec: VMRec)
    requires rec.process == process && rec.tap == tap == TapName(cfg, id)
    requires process.pid in host.st.procs && InTrees(cfg, id, process.socketPath)
    requires host.st.procs[process.pid].status.Signalled? ==> process.pid !in host.st.logs
    modifies host
    ensures TornDown(cfg, id, rec, old(host.st), host.st)
    ensures host.st.commands == old(host.st.commands) + Teardown(cfg, id, process.pid)
  {
    hide TreeGoneOrResidue, Occupied, Under;
    ghost var h0 := host.st;
    var _ := KillProcess(host, process);
    ghost var h1 := host.st;
    if tap != [] {
      var _ := DeleteTAPDevice(host, tap);
    }
    ghost var h2 := host.st;
    if cfg.useJailer {
      var _ := CleanupJail(host, cfg, id);
    }
    ghost var h3 := host.st;
    var _ := CleanupVMStorage(host, cfg, id);
    TreesTornDown(cfg, id, process, h0, h1, h2, h3, host.st);
  }

  lemma TreesTornDown(cfg: Config, id: Bytes, p: VMProcess, h0: HostState, h1: HostState, h2: HostState, h3: HostState, h4: HostState)
    requires InTrees(cfg, id, p.socketPath)
    requires (h1.nodes == h0.nodes || h1.nodes == h0.nodes - {p.socketPath}) && h1.residue == h0.residue
    requires h2.nodes == h1.nodes && h2.residue == h1.residue
    requires if cfg.useJailer then TreeRemoved(JailDir(cfg, id), h2, h3) else h3 == h2
    requires TreeRemoved(VMDir(cfg, id), h3, h4)
    ensures Shrunk(cfg, id, h0.nodes, h4.nodes) && ResidueOnlyOf(cfg, id, h0, h4) && TreesGoneOrResidue(cfg, id, h4)
  {
    if cfg.useJailer && Occupied(h4.nodes, JailDir(cfg, id)) { ShrunkOccupied(h3.nodes, h4.nodes, JailDir(cfg, id)); }
  }
}

/**
 * What each manager operation does to the registry and the host, stated without saying how.
 * The methods of the manager class are proved to do this; the theorems are about this.
 */
module Agent {
  import opened GoStrings
  import opened GoPath
  import opened Environment
  import opened Layout
  import opened Network
  import opened Storage
  import opened Process
  import Mac

  datatype VMState = RUNNING | STOPPED

  datatype VMInfo = VMInfo(
    vmId: Bytes,
    vcpuCount: int,
    memoryMb: int,
    ipAddress: string,
    socketPath: Path,
    metadata: map<string, string>)

  datatype VMRec = VMRec(info: VMInfo, state: VMState, process: VMProcess, tap: Bytes)

  datatype AgentState = AgentState(
    vms: map<Bytes, VMRec>,
    abandoned: set<Bytes>,  // ids whose last preparation failed after making the VM directory
    host: HostState)

  datatype CreateRequest = CreateRequest(
    vmId: Bytes,
    vcpuCount: int,
    memoryMb: int,
    ipAddress: string,
    kernelPath: Bytes,
    rootfsPath: Bytes,
    metadata: map<string, string>)

  datatype CreateError =
    | AlreadyExists
    | StorageFailed(prepare: PrepareError)
    | TapFailed(tapError: TapError)
    | StartFailed(start: StartError)
    | ApiFailed(request: nat)

  // ------------------------------------------------------------------ what a VM is given

  function Default(given: Bytes, configured: Bytes): Bytes { if given == [] then configured else given }

  function BootArgs(cfg: Config, ip: string): string {
    "console=ttyS0 reboot=k panic=1 pci=off" +
    if ip == "" then "" else " ip=" + ip + ":" + cfg.gatewayIP + ":" + cfg.gatewayIP + ":255.255.255.0::eth0:off"
  }

  function ApiKernel(cfg: Config, req: CreateRequest): Bytes {
    if cfg.useJailer then JAILED_KERNEL_PATH
    else if cfg.useOverlay then Default(req.kernelPath, cfg.kernelPath)
    else Render(VMDir(cfg, req.vmId).Child(KERNEL_FILE))
  }

  function ApiRootfs(cfg: Config, req: CreateRequest): Bytes {
    if cfg.useJailer then JAILED_ROOTFS_PATH else Render(VMDir(cfg, req.vmId).Child(ROOTFS_FILE))
  }

  /** The five requests that configure and start an instance. */
  function ConfigCalls(cfg: Config, req: CreateRequest): seq<ApiCall> {
    [ SetBootSource(ApiKernel(cfg, req), BootArgs(cfg, req.ipAddress)),
      SetMachineConfig(req.vcpuCount, req.memoryMb, false),
      AddDrive("rootfs", ApiRootfs(cfg, req), true, false),
      AddNetworkInterface("eth0", TapName(cfg, req.vmId), Mac.MacText(req.vmId)),
      InstanceStart ]
  }

  function InfoOf(req: CreateRequest, socketPath: Path): VMInfo {
    VMInfo(req.vmId, req.vcpuCount, req.memoryMb, req.ipAddress, socketPath, req.metadata)
  }

  // --------------------------------------------------------------------- the invariant

  function RegisteredTaps(vms: map<Bytes, VMRec>): set<Bytes> {
    set id | id in vms :: vms[id].tap
  }

  /** A record agrees with the host. */
  ghost predicate RecordOk(cfg: Config, id: Bytes, rec: VMRec, h: HostState) {
    && OkId(cfg, id)
    && rec.info.vmId == id
    && InTrees(cfg, id, rec.process.socketPath) && !IsRoot(cfg, id, rec.process.socketPath)
    && rec.tap == TapName(cfg, id)
    && rec.process.pid in h.procs
    && (rec.state.STOPPED? ==> !Alive(h, rec.process.pid))
    && VMDir(cfg, id) in h.nodes
    && (cfg.useJailer ==> JailDir(cfg, id) in h.nodes)
  }

  ghost predicate RecordsOk(cfg: Config, a: AgentState) {
    && (forall id :: id in a.vms ==> RecordOk(cfg, id, a.vms[id], a.host))
    && (forall x, y :: x in a.vms && y in a.vms && x != y ==> a.vms[x].process.pid != a.vms[y].process.pid)
  }

  /** Devices are those found at start-up, one per registered VM, and those that could not be deleted. */
  ghost predicate TapsConserved(foreign: set<Bytes>, a: AgentState) {
    && a.host.taps == foreign + RegisteredTaps(a.vms) + a.host.stuck
    && foreign !! RegisteredTaps(a.vms)
    && foreign !! a.host.stuck
    && RegisteredTaps(a.vms) !! a.host.stuck
    && DeletesIssued(a.host)
  }

  /** Every stuck device was the subject of a delete command. */
  predicate DeletesIssued(h: HostState) {
    forall t :: t in h.stuck ==> LinkDelete(t) in h.commands
  }

  ghost predicate TapsDistinct(a: AgentState) {
    forall x, y :: x in a.vms && y in a.vms && x != y ==> a.vms[x].tap != a.vms[y].tap
  }

  ghost predicate NoOrphans(a: AgentState) {
    forall pid :: Alive(a.host, pid) ==> exists id :: id in a.vms && a.vms[id].process.pid == pid
  }

  /** Anything left of an unregistered VM's trees is accounted for. */
  ghost predicate TreesAccounted(cfg: Config, a: AgentState) {
    forall id :: OkId(cfg, id) && id !in a.vms ==>
      && (Occupied(a.host.nodes, VMDir(cfg, id)) ==> VMDir(cfg, id) in a.host.residue || id in a.abandoned)
      && (cfg.useJailer && Occupied(a.host.nodes, JailDir(cfg, id)) ==> JailDir(cfg, id) in a.host.residue)
  }

  /** An open log handle belongs to a process the agent has not ended. */
  ghost predicate LogsOk(h: HostState) {
    forall k :: k in h.logs ==> k in h.procs && !h.procs[k].status.Signalled?
  }

  ghost predicate Inv(cfg: Config, foreign: set<Bytes>, a: AgentState) {
    && RecordsOk(cfg, a)
    && TapsConserved(foreign, a)
    && TapsDistinct(a)
    && NoOrphans(a)
    && TreesAccounted(cfg, a)
    && LogsOk(a.host)
  }

  /** A freshly started agent on a host whose leftovers, if any, are on record. */
  ghost predicate Init(cfg: Config, foreign: set<Bytes>, a: AgentState) {
    && a.vms == map[]
    && a.host.taps == foreign && a.host.stuck == {}
    && a.host.procs == map[] && a.host.logs == {}
    && TreesAccounted(cfg, a)
  }

  lemma InitInv(cfg: Config, foreign: set<Bytes>, a: AgentState)
    requires Init(cfg, foreign, a)
    ensures Inv(cfg, foreign, a)
  {
    assert RegisteredTaps(a.vms) == {};
  }

  // ------------------------------------------------------------------------- teardown

  /** The one teardown sequence: process, device, jail, storage. */
  function Teardown(cfg: Config, id: Bytes, pid: nat): (t: seq<Cmd>)
    ensures |t| == if cfg.useJailer then 4 else 3
  {
    [Kill(pid), LinkDelete(TapName(cfg, id))] +
    (if cfg.useJailer then [RemoveAll(JailDir(cfg, id))] else []) +
    [RemoveAll(VMDir(cfg, id))]
  }

  /** What is left of a tree after its removal was attempted is on record. */
  ghost predicate TreeGoneOrResidue(h: HostState, root: Path) {
    Occupied(h.nodes, root) ==> root in h.residue
  }

  ghost predicate TreesGoneOrResidue(cfg: Config, id: Bytes, h: HostState) {
    TreeGoneOrResidue(h, VMDir(cfg, id)) && (cfg.useJailer ==> TreeGoneOrResidue(h, JailDir(cfg, id)))
  }

  ghost predicate ResidueOnlyOf(cfg: Config, id: Bytes, h: HostState, h': HostState) {
    forall r :: !IsRoot(cfg, id, r) ==> (r in h.residue <==> r in h'.residue)
  }

  // ------------------------------------------------------------------------ operations

  /** The one acquisition sequence: directories, device, jail, process. */
  function Acquiring(cfg: Config, id: Bytes, pid: nat): seq<Cmd> {
    Preparing(cfg, id) + TapCommands(cfg, TapName(cfg, id)) +
    (if cfg.useJailer then JailCommands(cfg, id) else []) +
    [Spawn(pid)]
  }

  function Preparing(cfg: Config, id: Bytes): seq<Cmd> {
    if cfg.useJailer then [MkdirAll(VMDir(cfg, id))] else DirectCommands(cfg, id)
  }

  /** Both sequences, spelled out. */
  lemma TheSequences(cfg: Config, id: Bytes, pid: nat)
    ensures
      var tap := cfg.tapPrefix + [0x2D] + if |id| > 8 then id[..8] else id;
      var dir := Path(cfg.vmsDir.rooted, cfg.vmsDir.segs + [id]);
      var jail := Path(cfg.vmsDir.rooted, cfg.vmsDir.segs + [FIRECRACKER, id]);
      var root := jail.Child(ROOT_DIR);
      && Acquiring(cfg, id, pid) ==
           [MkdirAll(dir)] +
           (if !cfg.useJailer && cfg.useOverlay then [MkdirAll(dir.Child(UPPER_DIR)), MkdirAll(dir.Child(WORK_DIR))] else []) +
           [TuntapAdd(tap), LinkUp(tap), LinkMaster(tap, cfg.bridgeName)] +
           (if cfg.useJailer then [MkdirAll(root), MkdirAll(root.Child(RUN_DIR))] else []) +
           [Spawn(pid)]
      && Teardown(cfg, id, pid) ==
           [Kill(pid), LinkDelete(tap)] + (if cfg.useJailer then [RemoveAll(jail)] else []) + [RemoveAll(dir)]
  {
    assert JailDir(cfg, id).segs == cfg.vmsDir.segs + [FIRECRACKER, id];
  }

  /** The files and directories a VM is created with. */
  function Provisions(cfg: Config, id: Bytes): set<Path> {
    {SocketPath(cfg, id), LogPath(cfg, id)} +
    if cfg.useJailer then {VMDir(cfg, id)} + JailFiles(cfg, id) else DirectFiles(cfg, id)
  }

  /** All of it is in the VM's own trees. */
  lemma ProvisionsInside(cfg: Config, id: Bytes)
    ensures forall p :: p in Provisions(cfg, id) ==> InTrees(cfg, id, p)
  {
    forall root: Path, f: Bytes, p | Under(root, p) ensures Under(root, p.Child(f)) {
      assert p.Child(f).segs[..|root.segs|] == p.segs[..|root.segs|];
    }
    assert Under(VMDir(cfg, id), VMDir(cfg, id)) && Under(JailDir(cfg, id), JailDir(cfg, id));
    if cfg.useJailer {
      var root := JailDir(cfg, id).Child(ROOT_DIR);
      assert Under(JailDir(cfg, id), root) && Under(JailDir(cfg, id), root.Child(RUN_DIR));
    }
  }

  ghost predicate CreateOk(cfg: Config, a: AgentState, req: CreateRequest, rec: VMRec, a': AgentState) {
    var id := req.vmId;
    var h, h' := a.host, a'.host;
    && id !in a.vms
    && a'.vms == a.vms[id := rec]
    && rec.info == InfoOf(req, rec.process.socketPath) && rec.state == RUNNING
    && rec.tap == TapName(cfg, id)
    && rec.process.socketPath == SocketPath(cfg, id)
    && InTrees(cfg, id, rec.process.socketPath) && !IsRoot(cfg, id, rec.process.socketPath)
    && rec.tap !in h.taps && h'.taps == h.taps + {rec.tap} && h'.stuck == h.stuck
    && rec.process.pid !in h.procs && h'.procs.Keys == h.procs.Keys + {rec.process.pid}
    && Aged(h.procs, h'.procs) && !h'.procs[rec.process.pid].status.Signalled?
    && h'.procs[rec.process.pid].calls == ConfigCalls(cfg, req)
    && Confined(cfg, id, h.nodes, h'.nodes) && h'.residue == h.residue
    && Provisions(cfg, id) <= h'.nodes
    && h'.logs == h.logs + (if cfg.useJailer then {} else {rec.process.pid})
    && h'.commands == h.commands + Acquiring(cfg, id, rec.process.pid)
    && a'.abandoned == a.abandoned - {id}
  }

  /** What a creation that failed at `e` had issued when it turned to rolling back. */
  ghost predicate IssuedBefore(cfg: Config, id: Bytes, e: CreateError, pid: nat, c: seq<Cmd>) {
    var tap := TapName(cfg, id);
    match e
    case AlreadyExists => c == []
    case StorageFailed(p) => StorageIssued(cfg, id, p, c)
    case TapFailed(t) => c == Preparing(cfg, id) + TapIssued(cfg, tap, t)
    case StartFailed(s) =>
      var before := Preparing(cfg, id) + TapCommands(cfg, tap);
      before <= c && StartIssued(cfg, id, s, pid, c[|before|..])
    case ApiFailed(_) => c == Acquiring(cfg, id, pid)
  }

  /** The report of the host that a creation which failed at `e`, before its first request, goes back to. */
  ghost predicate BlamedOn(cfg: Config, req: CreateRequest, e: CreateError, waited: int, t: seq<Act>) {
    var dir, tap := VMDir(cfg, req.vmId), TapName(cfg, req.vmId);
    match e
    case AlreadyExists => t == []
    case StorageFailed(MkdirFailed) => Did(MkdirAll(dir), false) in t
    case StorageFailed(KernelFailed) =>
      var kernel := if req.kernelPath == [] then cfg.kernelPath else req.kernelPath;
      Copied(kernel, dir.Child(KERNEL_FILE), false) in t
    case StorageFailed(RootfsFailed) =>
      var rootfs := if req.rootfsPath == [] then cfg.rootfsPath else req.rootfsPath;
      if cfg.useOverlay then
        || Did(MkdirAll(dir.Child(UPPER_DIR)), false) in t || Did(MkdirAll(dir.Child(WORK_DIR)), false) in t
        || Overlaid(rootfs, dir.Child(ROOTFS_FILE), false) in t
      else Copied(rootfs, dir.Child(ROOTFS_FILE), false) in t
    case TapFailed(AddFailed) => Did(TuntapAdd(tap), false) in t
    case TapFailed(UpFailed) => Did(LinkUp(tap), false) in t
    case TapFailed(MasterFailed) => Did(LinkMaster(tap, cfg.bridgeName), false) in t
    case StartFailed(s) => StartReported(Some(s), SocketPath(cfg, req.vmId), if cfg.useJailer then 20000 else 5000, waited, t)
    case ApiFailed(_) => false
  }

  /** The part of the teardown sequence that undoes what was acquired before stage `e`. */
  function RollingBack(cfg: Config, id: Bytes, e: CreateError, pid: nat): seq<Cmd> {
    match e
    case AlreadyExists => []
    case StorageFailed(_) => []
    case TapFailed(_) => Teardown(cfg, id, pid)[2..]
    case StartFailed(_) => Teardown(cfg, id, pid)[1..]
    case ApiFailed(_) => Teardown(cfg, id, pid)
  }

  /** All a failed creation issued: the acquisition up to the failure, then the due part of the teardown. */
  ghost predicate RollbackSequence(cfg: Config, id: Bytes, e: CreateError, h: HostState, h': HostState) {
    exists pid, c ::
      && IssuedBefore(cfg, id, e, pid, c)
      && h'.commands == h.commands + c + RollingBack(cfg, id, e, pid)
      && (e.ApiFailed? ==> pid !in h.procs && pid in h'.procs)
  }

  ghost predicate CreateFailed(cfg: Config, a: AgentState, req: CreateRequest, e: CreateError, a': AgentState) {
    var id := req.vmId;
    var h, h' := a.host, a'.host;
    && a'.vms == a.vms
    && (e.AlreadyExists? <==> id in a.vms)
    && (e.AlreadyExists? ==> a' == a)
    // devices: none removed, and at most one added, which then is stuck
    && h.taps <= h'.taps <= h.taps + {TapName(cfg, id)}
    && h'.stuck == h.stuck + (h'.taps - h.taps)
    && (h'.taps != h.taps ==> LinkDelete(TapName(cfg, id)) in h'.commands)
    && (e.StorageFailed? || e == TapFailed(AddFailed) ==> h'.taps == h.taps)
    && (TapName(cfg, id) in h.taps ==> e.AlreadyExists? || e.StorageFailed? || e == TapFailed(AddFailed))
    // processes: nothing this call started is running
    && Aged(h.procs, h'.procs) && NothingLeftRunning(h.procs, h'.procs)
    && h.logs <= h'.logs && (cfg.useJailer ==> h'.logs == h.logs)
    && (forall k :: k in h'.logs && k !in h.logs ==> k !in h.procs && k in h'.procs && h'.procs[k].status.Exited?)
    // trees
    && Confined(cfg, id, h.nodes, h'.nodes)
    && ResidueOnlyOf(cfg, id, h, h')
    && (e.StorageFailed? ==> h'.residue == h.residue)
    && (e == StorageFailed(MkdirFailed) ==>
          a'.abandoned == a.abandoned && forall p :: InTrees(cfg, id, p) ==> (p in h'.nodes <==> p in h.nodes))
    && (e.StorageFailed? && e.prepare != MkdirFailed ==>
          !cfg.useJailer && VMDir(cfg, id) in h'.nodes && a'.abandoned == a.abandoned + {id})
    && (!e.AlreadyExists? && !e.StorageFailed? ==>
          TreesGoneOrResidue(cfg, id, h') && a'.abandoned == a.abandoned - {id})
    && h.commands <= h'.commands
    && RollbackSequence(cfg, id, e, h, h')
  }

  /** `rec`'s process, device and trees were torn down; each step was attempted whatever the others did. */
  ghost predicate TornDown(cfg: Config, id: Bytes, rec: VMRec, h: HostState, h': HostState) {
    var pid := rec.process.pid;
    && h'.commands == h.commands + Teardown(cfg, id, pid)
    && TapReleased(h, rec.tap, h')
    && h'.procs.Keys == h.procs.Keys && AgedBut(h.procs, h'.procs, pid) && !Alive(h', pid)
    && (pid in h.procs ==> h'.procs[pid].calls == h.procs[pid].calls)
    && Shrunk(cfg, id, h.nodes, h'.nodes)
    && ResidueOnlyOf(cfg, id, h, h') && TreesGoneOrResidue(cfg, id, h')
    // the log handle stays open exactly when the process had exited by itself
    && h'.logs == (if pid in h.procs && h'.procs[pid].status.Exited? then h.logs else h.logs - {pid})
  }

  ghost predicate DeleteStep(cfg: Config, a: AgentState, id: Bytes, ok: bool, a': AgentState) {
    && (ok <==> id in a.vms)
    && (!ok ==> a' == a)
    && (ok ==>
          && a'.vms == a.vms - {id}
          && a'.abandoned == a.abandoned
          && TornDown(cfg, id, a.vms[id], a.host, a'.host))
  }

  /** The signals one stop may send. */
  predicate StopCommands(force: bool, pid: nat, sent: seq<Cmd>) {
    if force then sent == [Kill(pid)]
    else sent == [Kill(pid)] || sent == [Term(pid)] || sent == [Term(pid), Kill(pid)]
  }

  ghost predicate Stopped(force: bool, p: VMProcess, h: HostState, h': HostState) {
    && h' == h.(procs := h'.procs, nodes := h'.nodes, logs := h'.logs, commands := h'.commands)
    && h.commands <= h'.commands && StopCommands(force, p.pid, h'.commands[|h.commands|..])
    && h'.procs.Keys == h.procs.Keys && AgedBut(h.procs, h'.procs, p.pid) && !Alive(h', p.pid)
    && (p.pid in h.procs ==>
          var before, after := h.procs[p.pid].calls, h'.procs[p.pid].calls;
          after == before || (!force && after == before + [SendCtrlAltDel]))
    && (h'.nodes == h.nodes || h'.nodes == h.nodes - {p.socketPath})
    && (h'.logs == h.logs || h'.logs == h.logs - {p.pid})
    && (p.pid in h'.logs ==> p.pid in h.procs && !h'.procs[p.pid].status.Signalled?)
  }

  ghost predicate StopStep(a: AgentState, id: Bytes, force: bool, ok: bool, a': AgentState) {
    && (ok <==> id in a.vms)
    && (!ok ==> a' == a)
    && (ok ==>
          && a'.vms == a.vms[id := a.vms[id].(state := STOPPED)]
          && a'.abandoned == a.abandoned
          && Stopped(force, a.vms[id].process, a.host, a'.host))
  }

  /** Nothing happened but processes exiting by themselves. */
  ghost predicate OnlyAged(a: AgentState, a': AgentState) {
    && a' == a.(host := a.host.(procs := a'.host.procs))
    && a'.host.procs.Keys == a.host.procs.Keys
    && Aged(a.host.procs, a'.host.procs)
  }

  /** What the manager should say about a registered VM. */
  function Reported(a: AgentState, id: Bytes): VMState
    requires id in a.vms
  {
    if Alive(a.host, a.vms[id].process.pid) then RUNNING else STOPPED
  }

  ghost predicate StartStep(a: AgentState, id: Bytes, ok: bool, a': AgentState) {
    OnlyAged(a, a') && (ok <==> id in a.vms && Reported(a', id) == RUNNING)
  }

  ghost predicate GetStep(a: AgentState, id: Bytes, r: Option<(VMInfo, VMState)>, a': AgentState) {
    && OnlyAged(a, a')
    && (r.Some? <==> id in a.vms)
    && (r.Some? ==> r.value == (a.vms[id].info, Reported(a', id)))
  }

  ghost predicate ListStep(a: AgentState, list: map<Bytes, (VMInfo, VMState)>, a': AgentState) {
    && OnlyAged(a, a')
    && list.Keys == a.vms.Keys
    && forall id :: id in list ==>
         && list[id].0 == a.vms[id].info
         && (list[id].1 == RUNNING ==> Reported(a, id) == RUNNING)
         && (list[id].1 == STOPPED ==> Reported(a', id) == STOPPED)
  }

  // ---------------------------------------------------- every operation keeps the invariant

  /** The operation is about `id` and, at most, the process `pid`. */
  ghost predicate EffectOn(cfg: Config, id: Bytes, pid: nat, h: HostState, h': HostState) {
    Confined(cfg, id, h.nodes, h'.nodes) && AgedBut(h.procs, h'.procs, pid)
  }

  /** Log handles stay right if the one process the operation is about is right. */
  lemma LogsKept(pid: nat, h: HostState, h': HostState)
    requires LogsOk(h) && AgedBut(h.procs, h'.procs, pid)
    requires forall k :: k in h'.logs && k != pid ==> k in h.logs
    requires pid in h'.logs ==> pid in h'.procs && !h'.procs[pid].status.Signalled?
    ensures LogsOk(h')
  {
    forall k | k in h'.logs ensures k in h'.procs && !h'.procs[k].status.Signalled? {
      if k != pid { assert AgedProc(h.procs[k], h'.procs[k]); }
    }
  }

  /** Another id's VM and jail directory stay where they are. */
  lemma OthersKeepTrees(cfg: Config, id: Bytes, x: Bytes, h: HostState, h': HostState)
    requires OkId(cfg, id) && OkId(cfg, x) && id != x && Confined(cfg, id, h.nodes, h'.nodes)
    ensures VMDir(cfg, x) in h.nodes <==> VMDir(cfg, x) in h'.nodes
    ensures cfg.useJailer ==> (JailDir(cfg, x) in h.nodes <==> JailDir(cfg, x) in h'.nodes)
  {
    ConfinedSparesOthers(cfg, id, x, h.nodes, h'.nodes);
    assert InTrees(cfg, x, VMDir(cfg, x));
    assert cfg.useJailer ==> InTrees(cfg, x, JailDir(cfg, x));
  }

  lemma OthersKeepOccupancy(cfg: Config, id: Bytes, x: Bytes, h: HostState, h': HostState)
    requires OkId(cfg, id) && OkId(cfg, x) && id != x && Confined(cfg, id, h.nodes, h'.nodes)
    ensures Occupied(h'.nodes, VMDir(cfg, x)) ==> Occupied(h.nodes, VMDir(cfg, x))
    ensures cfg.useJailer && Occupied(h'.nodes, JailDir(cfg, x)) ==> Occupied(h.nodes, JailDir(cfg, x))
    ensures !IsRoot(cfg, id, VMDir(cfg, x)) && (cfg.useJailer ==> !IsRoot(cfg, id, JailDir(cfg, x)))
  {
    ConfinedSparesOthers(cfg, id, x, h.nodes, h'.nodes);
    if Occupied(h'.nodes, VMDir(cfg, x)) {
      var p :| p in h'.nodes && Under(VMDir(cfg, x), p);
      assert InTrees(cfg, x, p);
    }
    if cfg.useJailer && Occupied(h'.nodes, JailDir(cfg, x)) {
      var p :| p in h'.nodes && Under(JailDir(cfg, x), p);
      assert InTrees(cfg, x, p);
    }
    TreesApart(cfg, id, x, VMDir(cfg, x));
    if cfg.useJailer { TreesApart(cfg, id, x, JailDir(cfg, x)); }
  }

  /** Every other VM's record still agrees with the host. */
  lemma OthersKeepRecords(cfg: Config, id: Bytes, pid: nat, x: Bytes, rec: VMRec, h: HostState, h': HostState)
    requires OkId(cfg, id) && x != id && rec.process.pid != pid
    requires RecordOk(cfg, x, rec, h) && EffectOn(cfg, id, pid, h, h')
    ensures RecordOk(cfg, x, rec, h')
  {
    OthersKeepTrees(cfg, id, x, h, h');
    assert AgedProc(h.procs[rec.process.pid], h'.procs[rec.process.pid]);
  }

  lemma OthersStayAccounted(cfg: Config, id: Bytes, a: AgentState, a': AgentState)
    requires OkId(cfg, id) && TreesAccounted(cfg, a)
    requires Confined(cfg, id, a.host.nodes, a'.host.nodes) && ResidueOnlyOf(cfg, id, a.host, a'.host)
    requires a.vms.Keys - {id} <= a'.vms.Keys
    requires a.abandoned - {id} <= a'.abandoned
    requires id !in a'.vms ==>
      && (Occupied(a'.host.nodes, VMDir(cfg, id)) ==> VMDir(cfg, id) in a'.host.residue || id in a'.abandoned)
      && (cfg.useJailer && Occupied(a'.host.nodes, JailDir(cfg, id)) ==> JailDir(cfg, id) in a'.host.residue)
    ensures TreesAccounted(cfg, a')
  {
    forall x | OkId(cfg, x) && x !in a'.vms
      ensures Occupied(a'.host.nodes, VMDir(cfg, x)) ==> VMDir(cfg, x) in a'.host.residue || x in a'.abandoned
      ensures cfg.useJailer && Occupied(a'.host.nodes, JailDir(cfg, x)) ==> JailDir(cfg, x) in a'.host.residue
    {
      if x != id {
        assert x !in a.vms;
        OthersKeepOccupancy(cfg, id, x, a.host, a'.host);
      }
    }
  }

  lemma RegisteredTapsUpdate(vms: map<Bytes, VMRec>, id: Bytes, rec: VMRec)
    requires id in vms ==> vms[id].tap == rec.tap
    ensures RegisteredTaps(vms[id := rec]) == RegisteredTaps(vms) + {rec.tap}
  {
    var vms' := vms[id := rec];
    assert vms'[id].tap == rec.tap;
    forall t | t in RegisteredTaps(vms) ensures t in RegisteredTaps(vms') {
      var x :| x in vms && vms[x].tap == t;
      assert vms'[x].tap == t;
    }
  }

  lemma RegisteredTapsRemove(a: AgentState, id: Bytes)
    requires id in a.vms && TapsDistinct(a)
    ensures RegisteredTaps(a.vms - {id}) == RegisteredTaps(a.vms) - {a.vms[id].tap}
    ensures a.vms[id].tap in RegisteredTaps(a.vms)
  {
    var vms' := a.vms - {id};
    forall t | t in RegisteredTaps(a.vms) && t != a.vms[id].tap ensures t in RegisteredTaps(vms') {
      var x :| x in a.vms && a.vms[x].tap == t;
      assert vms'[x].tap == t;
    }
  }

  /** Whatever became of `id`'s own record, the others still agree with the host. */
  lemma OtherRecordsKept(cfg: Config, a: AgentState, id: Bytes, pid: nat, a': AgentState)
    requires OkId(cfg, id) && RecordsOk(cfg, a) && EffectOn(cfg, id, pid, a.host, a'.host)
    requires forall x :: x in a'.vms && x != id ==>
      x in a.vms && a'.vms[x] == a.vms[x] && a.vms[x].process.pid != pid
    requires id in a'.vms ==> RecordOk(cfg, id, a'.vms[id], a'.host) && a'.vms[id].process.pid == pid
    ensures RecordsOk(cfg, a')
  {
    hide RecordOk, EffectOn;
    forall x | x in a'.vms && x != id ensures RecordOk(cfg, x, a'.vms[x], a'.host) {
      OthersKeepRecords(cfg, id, pid, x, a.vms[x], a.host, a'.host);
    }
  }

  lemma TapsAfterCreate(foreign: set<Bytes>, a: AgentState, id: Bytes, rec: VMRec, a': AgentState)
    requires TapsConserved(foreign, a) && TapsDistinct(a)
    requires id !in a.vms && a'.vms == a.vms[id := rec] && rec.tap !in a.host.taps
    requires a'.host.taps == a.host.taps + {rec.tap} && a'.host.stuck == a.host.stuck
    requires a.host.commands <= a'.host.commands
    ensures TapsConserved(foreign, a') && TapsDistinct(a')
  {
    RegisteredTapsUpdate(a.vms, id, rec);
    forall x | x in a.vms ensures a.vms[x].tap != rec.tap {
      assert a.vms[x].tap in RegisteredTaps(a.vms);
    }
  }

  lemma OrphansAfterCreate(a: AgentState, id: Bytes, rec: VMRec, a': AgentState)
    requires NoOrphans(a) && id !in a.vms && a'.vms == a.vms[id := rec]
    requires a'.host.procs.Keys == a.host.procs.Keys + {rec.process.pid} && Aged(a.host.procs, a'.host.procs)
    ensures NoOrphans(a')
  {
    forall pid | Alive(a'.host, pid)
      ensures exists x :: x in a'.vms && a'.vms[x].process.pid == pid
    {
      if pid == rec.process.pid {
        assert a'.vms[id].process.pid == pid;
      } else {
        assert AgedProc(a.host.procs[pid], a'.host.procs[pid]);
        assert Alive(a.host, pid);
        var x :| x in a.vms && a.vms[x].process.pid == pid;
        assert a'.vms[x].process.pid == pid;
      }
    }
  }

  lemma CreateOkKeepsInv(cfg: Config, foreign: set<Bytes>, a: AgentState, req: CreateRequest, rec: VMRec, a': AgentState)
    requires OkId(cfg, req.vmId) && Inv(cfg, foreign, a) && CreateOk(cfg, a, req, rec, a')
    ensures Inv(cfg, foreign, a')
  {
    hide Confined, Occupied, InTrees, AboveTrees, VMDir, JailDir, TapName, OkId, SocketPath, ConfigCalls;
    var id, pid := req.vmId, rec.process.pid;
    TapsAfterCreate(foreign, a, id, rec, a');
    OrphansAfterCreate(a, id, rec, a');
    OthersStayAccounted(cfg, id, a, a');
    assert EffectOn(cfg, id, pid, a.host, a'.host);
    OtherRecordsKept(cfg, a, id, pid, a');
    LogsKept(pid, a.host, a'.host);
  }

  lemma SameTreesSameOccupancy(cfg: Config, id: Bytes, h: HostState, h': HostState)
    requires forall p :: InTrees(cfg, id, p) ==> (p in h'.nodes <==> p in h.nodes)
    ensures Occupied(h'.nodes, VMDir(cfg, id)) ==> Occupied(h.nodes, VMDir(cfg, id))
    ensures cfg.useJailer && Occupied(h'.nodes, JailDir(cfg, id)) ==> Occupied(h.nodes, JailDir(cfg, id))
  {
    if Occupied(h'.nodes, VMDir(cfg, id)) {
      var p :| p in h'.nodes && Under(VMDir(cfg, id), p);
      assert InTrees(cfg, id, p);
    }
    if cfg.useJailer && Occupied(h'.nodes, JailDir(cfg, id)) {
      var p :| p in h'.nodes && Under(JailDir(cfg, id), p);
      assert InTrees(cfg, id, p);
    }
  }

  lemma CreateFailedKeepsInv(cfg: Config, foreign: set<Bytes>, a: AgentState, req: CreateRequest, e: CreateError, a': AgentState)
    requires OkId(cfg, req.vmId) && Inv(cfg, foreign, a) && CreateFailed(cfg, a, req, e, a')
    ensures Inv(cfg, foreign, a')
  {
    if e.AlreadyExists? { return; }
    var id := req.vmId;
    forall x | x in a'.vms ensures RecordOk(cfg, x, a'.vms[x], a'.host) {
      assert RecordOk(cfg, x, a.vms[x], a.host);
      OthersKeepTrees(cfg, id, x, a.host, a'.host);
      assert AgedProc(a.host.procs[a.vms[x].process.pid], a'.host.procs[a.vms[x].process.pid]);
    }
    forall pid | Alive(a'.host, pid)
      ensures exists x :: x in a'.vms && a'.vms[x].process.pid == pid
    {
      assert AgedProc(a.host.procs[pid], a'.host.procs[pid]);
      assert Alive(a.host, pid);
    }
    if e == StorageFailed(MkdirFailed) { SameTreesSameOccupancy(cfg, id, a.host, a'.host); }
    OthersStayAccounted(cfg, id, a, a');
    forall k | k in a'.host.logs && k in a.host.logs ensures k in a'.host.procs && !a'.host.procs[k].status.Signalled? {
      assert AgedProc(a.host.procs[k], a'.host.procs[k]);
    }
  }

  lemma ShrunkIsConfined(cfg: Config, id: Bytes, n: set<Path>, n': set<Path>)
    requires Shrunk(cfg, id, n, n')
    ensures Confined(cfg, id, n, n')
  {
  }

  /** Ending one registered VM's process leaves no orphan. */
  lemma EndingLeavesNoOrphans(a: AgentState, id: Bytes, a': AgentState)
    requires NoOrphans(a) && id in a.vms
    requires a'.host.procs.Keys == a.host.procs.Keys
    requires AgedBut(a.host.procs, a'.host.procs, a.vms[id].process.pid) && !Alive(a'.host, a.vms[id].process.pid)
    requires forall x :: x in a.vms && x != id ==> x in a'.vms && a'.vms[x].process == a.vms[x].process
    ensures NoOrphans(a')
  {
    forall pid | Alive(a'.host, pid)
      ensures exists x :: x in a'.vms && a'.vms[x].process.pid == pid
    {
      assert pid != a.vms[id].process.pid;
      assert AgedProc(a.host.procs[pid], a'.host.procs[pid]);
      assert Alive(a.host, pid);
      var x :| x in a.vms && a.vms[x].process.pid == pid;
      assert a'.vms[x].process.pid == pid;
    }
  }

  lemma TapsAfterDelete(foreign: set<Bytes>, a: AgentState, id: Bytes, a': AgentState)
    requires TapsConserved(foreign, a) && TapsDistinct(a)
    requires id in a.vms && a'.vms == a.vms - {id} && TapReleased(a.host, a.vms[id].tap, a'.host)
    requires a.host.commands <= a'.host.commands && LinkDelete(a.vms[id].tap) in a'.host.commands
    ensures TapsConserved(foreign, a') && TapsDistinct(a')
  {
    RegisteredTapsRemove(a, id);
  }

  lemma RecordsAfterDelete(cfg: Config, a: AgentState, id: Bytes, a': AgentState)
    requires RecordsOk(cfg, a) && id in a.vms && a'.vms == a.vms - {id}
    requires TornDown(cfg, id, a.vms[id], a.host, a'.host)
    ensures RecordsOk(cfg, a') && OkId(cfg, id) && Confined(cfg, id, a.host.nodes, a'.host.nodes)
  {
    assert RecordOk(cfg, id, a.vms[id], a.host);
    ShrunkIsConfined(cfg, id, a.host.nodes, a'.host.nodes);
    OtherRecordsKept(cfg, a, id, a.vms[id].process.pid, a');
  }

  lemma DeleteKeepsInv(cfg: Config, foreign: set<Bytes>, a: AgentState, id: Bytes, ok: bool, a': AgentState)
    requires Inv(cfg, foreign, a) && DeleteStep(cfg, a, id, ok, a')
    ensures Inv(cfg, foreign, a')
  {
    if ok {
      RecordsAfterDelete(cfg, a, id, a');
      assert a.vms[id].tap == TapName(cfg, id) by { assert RecordOk(cfg, id, a.vms[id], a.host); }
      assert a'.host.commands[|a.host.commands| + 1] == LinkDelete(a.vms[id].tap);
      TapsAfterDelete(foreign, a, id, a');
      EndingLeavesNoOrphans(a, id, a');
      OthersStayAccounted(cfg, id, a, a');
      LogsKept(a.vms[id].process.pid, a.host, a'.host);
    }
  }

  lemma SocketRemovalConfined(cfg: Config, id: Bytes, p: VMProcess, n: set<Path>, n': set<Path>)
    requires InTrees(cfg, id, p.socketPath) && (n' == n || n' == n - {p.socketPath})
    ensures Confined(cfg, id, n, n')
  {
  }

  lemma RecordAfterStop(cfg: Config, id: Bytes, rec: VMRec, force: bool, h: HostState, h': HostState)
    requires RecordOk(cfg, id, rec, h) && Stopped(force, rec.process, h, h')
    ensures RecordOk(cfg, id, rec.(state := STOPPED), h')
    ensures EffectOn(cfg, id, rec.process.pid, h, h') && ResidueOnlyOf(cfg, id, h, h')
    ensures OkId(cfg, id) && Confined(cfg, id, h.nodes, h'.nodes)
  {
    SocketRemovalConfined(cfg, id, rec.process, h.nodes, h'.nodes);
  }

  lemma TapsAfterStop(foreign: set<Bytes>, a: AgentState, id: Bytes, rec: VMRec, a': AgentState)
    requires TapsConserved(foreign, a) && TapsDistinct(a)
    requires id in a.vms && a'.vms == a.vms[id := rec] && rec.tap == a.vms[id].tap
    requires a'.host.taps == a.host.taps && a'.host.stuck == a.host.stuck
    requires a.host.commands <= a'.host.commands
    ensures TapsConserved(foreign, a') && TapsDistinct(a')
  {
    RegisteredTapsUpdate(a.vms, id, rec);
    assert rec.tap in RegisteredTaps(a.vms);
    assert RegisteredTaps(a'.vms) == RegisteredTaps(a.vms);
  }

  lemma RecordsAfterStop(cfg: Config, a: AgentState, id: Bytes, force: bool, a': AgentState)
    requires RecordsOk(cfg, a) && id in a.vms
    requires a'.vms == a.vms[id := a.vms[id].(state := STOPPED)] && Stopped(force, a.vms[id].process, a.host, a'.host)
    ensures RecordsOk(cfg, a') && OkId(cfg, id)
    ensures Confined(cfg, id, a.host.nodes, a'.host.nodes) && ResidueOnlyOf(cfg, id, a.host, a'.host)
  {
    hide RecordOk, Stopped, EffectOn, Confined, ResidueOnlyOf, OkId;
    RecordAfterStop(cfg, id, a.vms[id], force, a.host, a'.host);
    OtherRecordsKept(cfg, a, id, a.vms[id].process.pid, a');
  }

  lemma StopKeepsInv(cfg: Config, foreign: set<Bytes>, a: AgentState, id: Bytes, force: bool, ok: bool, a': AgentState)
    requires Inv(cfg, foreign, a) && StopStep(a, id, force, ok, a')
    ensures Inv(cfg, foreign, a')
  {
    if ok {
      RecordsAfterStop(cfg, a, id, force, a');
      TapsAfterStop(foreign, a, id, a'.vms[id], a');
      EndingLeavesNoOrphans(a, id, a');
      OthersStayAccounted(cfg, id, a, a');
      LogsKept(a.vms[id].process.pid, a.host, a'.host);
    }
  }

  lemma AgingKeepsInv(cfg: Config, foreign: set<Bytes>, a: AgentState, a': AgentState)
    requires Inv(cfg, foreign, a) && OnlyAged(a, a')
    ensures Inv(cfg, foreign, a')
  {
    forall x | x in a'.vms ensures RecordOk(cfg, x, a'.vms[x], a'.host) {
      assert RecordOk(cfg, x, a.vms[x], a.host);
      assert AgedProc(a.host.procs[a.vms[x].process.pid], a'.host.procs[a.vms[x].process.pid]);
    }
    forall k | k in a'.host.logs ensures k in a'.host.procs && !a'.host.procs[k].status.Signalled? {
      assert AgedProc(a.host.procs[k], a'.host.procs[k]);
    }
    forall pid | Alive(a'.host, pid)
      ensures exists x :: x in a'.vms && a'.vms[x].process.pid == pid
    {
      assert AgedProc(a.host.procs[pid], a'.host.procs[pid]);
      assert Alive(a.host, pid);
    }
  }
}

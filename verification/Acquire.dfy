/** The acquisition stages of CreateVM in both modes, and what rolling one back leaves. */
module Acquire {
  import opened GoStrings
  import opened GoPath
  import opened Environment
  import opened Layout
  import opened Network
  import opened Storage
  import opened Process
  import opened Agent
  import opened Rollback
  import Mac

  datatype Acquisition = Acquisition(storage: VMStorage, process: VMProcess, tap: Bytes, mac: string)

  function StorageCleanup(cfg: Config): Cleanup {
    if cfg.useJailer then CleanupJailAndStorage else CleanupStorage
  }

  /** What is on the stack when acquisition ends with `r`. */
  function StackFor(cfg: Config, id: Bytes, r: Result<Acquisition, CreateError>): seq<Cleanup> {
    match r
    case Ok(q) => [StorageCleanup(cfg), DeleteTap(TapName(cfg, id)), KillStarted(q.process)]
    case Err(StartFailed(_)) => [StorageCleanup(cfg), DeleteTap(TapName(cfg, id))]
    case Err(TapFailed(_)) => [StorageCleanup(cfg)]
    case Err(_) => []
  }

  /** The device: not there, there, or stuck. */
  predicate AcquiredTaps(tap: Bytes, h: HostState, r: Result<Acquisition, CreateError>, h': HostState) {
    match r
    case Err(StorageFailed(_)) => h'.taps == h.taps && h'.stuck == h.stuck
    case Err(TapFailed(AddFailed)) => h'.taps == h.taps && h'.stuck == h.stuck
    case Err(TapFailed(_)) =>
      tap !in h.taps && TapReleased(h.(taps := h.taps + {tap}), tap, h') && LinkDelete(tap) in h'.commands
    case _ => tap !in h.taps && h'.taps == h.taps + {tap} && h'.stuck == h.stuck
  }

  ghost predicate AcquiredProcs(cfg: Config, h: HostState, r: Result<Acquisition, CreateError>, h': HostState) {
    && Aged(h.procs, h'.procs)
    && (r.Err? ==> NothingLeftRunning(h.procs, h'.procs) && h'.logs == h.logs)
    && (r.Ok? ==>
          && StartedOnly(h.procs, h'.procs, r.value.process.pid)
          && h'.logs == h.logs + (if cfg.useJailer then {} else {r.value.process.pid}))
  }

  ghost predicate AcquiredTrees(cfg: Config, id: Bytes, h: HostState, r: Result<Acquisition, CreateError>, h': HostState) {
    && Confined(cfg, id, h.nodes, h'.nodes) && h'.residue == h.residue
    && (r == Err(StorageFailed(MkdirFailed)) ==> forall p :: InTrees(cfg, id, p) ==> (p in h'.nodes <==> p in h.nodes))
    && (r.Err? && r.error.StorageFailed? && r.error.prepare != MkdirFailed ==> !cfg.useJailer && VMDir(cfg, id) in h'.nodes)
    && (r.Ok? ==> Provisions(cfg, id) <= h'.nodes)
  }

  /** Where a request's files are for the API calls. */
  predicate AcquiredPaths(cfg: Config, req: CreateRequest, q: Acquisition) {
    && q.tap == TapName(cfg, req.vmId)
    && q.mac == Mac.MacText(req.vmId)
    && q.storage.kernelPath == ApiKernel(cfg, req)
    && q.storage.rootfsPath == ApiRootfs(cfg, req)
    && q.storage.socketPath == q.process.socketPath == SocketPath(cfg, req.vmId)
  }

  ghost predicate Acquired(cfg: Config, req: CreateRequest, h: HostState, r: Result<Acquisition, CreateError>, h': HostState) {
    && AcquiredTaps(TapName(cfg, req.vmId), h, r, h')
    && AcquiredProcs(cfg, h, r, h')
    && AcquiredTrees(cfg, req.vmId, h, r, h')
    && h.commands <= h'.commands
    && (r.Err? ==> !r.error.AlreadyExists? && !r.error.ApiFailed?)
    && (r.Err? ==> exists pid :: IssuedBefore(cfg, req.vmId, r.error, pid, h'.commands[|h.commands|..]))
    && (r.Ok? ==> AcquiredPaths(cfg, req, r.value))
    && (r.Ok? ==> h'.commands == h.commands + Acquiring(cfg, req.vmId, r.value.process.pid))
    && (TapName(cfg, req.vmId) in h.taps ==> r.Err? && (r.error.StorageFailed? || r.error == TapFailed(AddFailed)))
  }

  /** A VM's files were made from those that the request, or else the configuration, names. */
  predicate Supplied(cfg: Config, req: CreateRequest, t: seq<Act>) {
    var kernel := if req.kernelPath == [] then cfg.kernelPath else req.kernelPath;
    var rootfs := if req.rootfsPath == [] then cfg.rootfsPath else req.rootfsPath;
    var dir, root := VMDir(cfg, req.vmId), Path(cfg.vmsDir.rooted, cfg.vmsDir.segs + [FIRECRACKER, req.vmId, ROOT_DIR]);
    if cfg.useJailer then
      && Copied(cfg.binaryPath, root.Child(FIRECRACKER), true) in t
      && Copied(kernel, root.Child(JAILED_KERNEL_FILE), true) in t
      && Copied(rootfs, root.Child(ROOTFS_FILE), true) in t
    else if cfg.useOverlay then Overlaid(rootfs, dir.Child(ROOTFS_FILE), true) in t
    else
      && Copied(kernel, dir.Child(KERNEL_FILE), true) in t
      && Copied(rootfs, dir.Child(ROOTFS_FILE), true) in t
  }

  /** What the host reported to an acquisition that ended with `r`; it sends no request. */
  ghost predicate AcquisitionReported(cfg: Config, req: CreateRequest, r: Result<Acquisition, CreateError>, waited: int,
                                      t: seq<Act>) {
    && Quiet(t)
    && (r.Err? ==> BlamedOn(cfg, req, r.error, waited, t))
    && (r.Ok? ==> Supplied(cfg, req, t) && Did(LinkMaster(TapName(cfg, req.vmId), cfg.bridgeName), true) in t)
  }

  /** The same for the stages before the process is started, which do not wait. */
  ghost predicate StageReported(cfg: Config, req: CreateRequest, e: Option<CreateError>, t: seq<Act>) {
    && Plain(t)
    && match e
       case Some(error) => (error.StorageFailed? || error.TapFailed?) && BlamedOn(cfg, req, error, 0, t)
       case None =>
         && (!cfg.useJailer ==> Supplied(cfg, req, t))
         && Did(LinkMaster(TapName(cfg, req.vmId), cfg.bridgeName), true) in t
  }

  lemma StageFailedReported(cfg: Config, req: CreateRequest, e: CreateError, waited: int, t: seq<Act>)
    requires StageReported(cfg, req, Some(e), t)
    ensures AcquisitionReported(cfg, req, Err(e), waited, t)
  {
  }

  lemma StorageReported(cfg: Config, req: CreateRequest, r: Result<VMStorage, PrepareError>, t: seq<Act>)
    requires var dir := VMDir(cfg, req.vmId);
      && Tried([Did(MkdirAll(dir), true)] +
                 Placing(cfg, dir, Default(req.kernelPath, cfg.kernelPath), Default(req.rootfsPath, cfg.rootfsPath)),
               r.Ok?, t)
      && (r == Err(MkdirFailed) <==> r.Err? && |t| == 1)
      && (r == Err(KernelFailed) <==> r.Err? && |t| == 2 && !cfg.useOverlay)
    ensures Plain(t)
    ensures r.Err? ==> StageReported(cfg, req, Some(StorageFailed(r.error)), t)
    ensures r.Ok? && !cfg.useJailer ==> Supplied(cfg, req, t)
  {
    hide TapName, VMDir;
    if r.Err? { assert t[|t| - 1] in t; }
  }

  lemma TapReported(cfg: Config, req: CreateRequest, r: Result<Bytes, TapError>, before: seq<Act>, t: seq<Act>)
    requires Plain(before)
    requires var tap := TapName(cfg, req.vmId);
      match r
      case Ok(_) => t == [Did(TuntapAdd(tap), true), Did(LinkUp(tap), true), Did(LinkMaster(tap, cfg.bridgeName), true)]
      case Err(AddFailed) => t == [Did(TuntapAdd(tap), false)]
      case Err(UpFailed) =>
        |t| == 3 && t[..2] == [Did(TuntapAdd(tap), true), Did(LinkUp(tap), false)] && IsDelete(t[2], tap)
      case Err(MasterFailed) =>
        && |t| == 4 && t[..2] == [Did(TuntapAdd(tap), true), Did(LinkUp(tap), true)]
        && t[2] == Did(LinkMaster(tap, cfg.bridgeName), false) && IsDelete(t[3], tap)
    ensures r.Err? ==> StageReported(cfg, req, Some(TapFailed(r.error)), before + t)
    ensures r.Ok? && (!cfg.useJailer ==> Supplied(cfg, req, before)) ==> StageReported(cfg, req, None, before + t)
  {
    hide TapName, VMDir, Default;
    match r {
      case Err(UpFailed) => assert t == t[..2] + [t[2]] && t[1] in t;
      case Err(MasterFailed) => assert t == t[..2] + [t[2], t[3]] && t[2] in t;
      case Err(AddFailed) => assert t[0] in t;
      case Ok(_) => assert t[2] in t;
    }
  }

  lemma StartFailedReported(cfg: Config, req: CreateRequest, e: StartError, waited: int, before: seq<Act>, t: seq<Act>)
    requires StageReported(cfg, req, None, before)
    requires StartReported(Some(e), SocketPath(cfg, req.vmId), if cfg.useJailer then 20000 else 5000, waited, t)
    ensures AcquisitionReported(cfg, req, Err(StartFailed(e)), waited, before + t)
  {
    ReportedWithin(Some(e), SocketPath(cfg, req.vmId), if cfg.useJailer then 20000 else 5000, waited, waited, before, t, []);
    assert before + t + [] == before + t;
  }

  /** The stages before the start did `a`, and the start of the process `b`. */
  lemma AcquiredReported(cfg: Config, req: CreateRequest, q: Acquisition, waited: int, a: seq<Act>, b: seq<Act>)
    requires StageReported(cfg, req, None, a)
    requires cfg.useJailer ==> Supplied(cfg, req, b)
    requires StartReported(None, SocketPath(cfg, req.vmId), if cfg.useJailer then 20000 else 5000, waited, b)
    ensures AcquisitionReported(cfg, req, Ok(q), waited, a + b)
  {
    hide TapName, VMDir, Default;
  }

  /** From `h0` storage was prepared, leading to `h1`, and then a device was added, leading to `h2`. */
  ghost predicate Staged(cfg: Config, id: Bytes, h0: HostState, h1: HostState, h2: HostState) {
    var tap := TapName(cfg, id);
    && OnlyFiles(h0, h1) && Confined(cfg, id, h0.nodes, h1.nodes)
    && tap !in h0.taps
    && h2 == h1.(taps := h0.taps + {tap}, commands := h0.commands + Preparing(cfg, id) + TapCommands(cfg, tap))
  }

  /** The stages before the start ended: with an error and the stack for it, or with storage and the device. */
  ghost predicate StagedOr(cfg: Config, req: CreateRequest, e: Option<CreateError>, tapDevice: Bytes, cleanups: seq<Cleanup>,
                           h0: HostState, h1: HostState, h2: HostState) {
    match e
    case Some(error) => Acquired(cfg, req, h0, Err(error), h2) && cleanups == StackFor(cfg, req.vmId, Err(error))
    case None =>
      && Staged(cfg, req.vmId, h0, h1, h2) && tapDevice == TapName(cfg, req.vmId)
      && cleanups == [StorageCleanup(cfg), DeleteTap(tapDevice)]
  }

  lemma StorageStageFailed(cfg: Config, req: CreateRequest, h: HostState, e: PrepareError, h': HostState)
    requires OnlyFiles(h, h') && Confined(cfg, req.vmId, h.nodes, h'.nodes)
    requires e == MkdirFailed ==> forall p :: InTrees(cfg, req.vmId, p) ==> (p in h'.nodes <==> p in h.nodes)
    requires e != MkdirFailed ==> !cfg.useJailer && VMDir(cfg, req.vmId) in h'.nodes
    requires StorageIssued(cfg, req.vmId, e, h'.commands[|h.commands|..])
    ensures Acquired(cfg, req, h, Err(StorageFailed(e)), h')
  {
    assert IssuedBefore(cfg, req.vmId, StorageFailed(e), 0, h'.commands[|h.commands|..]);
  }

  lemma TapStageFailed(cfg: Config, req: CreateRequest, h0: HostState, h1: HostState, e: TapError, h2: HostState)
    requires OnlyFiles(h0, h1) && Confined(cfg, req.vmId, h0.nodes, h1.nodes)
    requires h2 == h1.(taps := h2.taps, stuck := h2.stuck, commands := h2.commands)
    requires h2.commands == h0.commands + Preparing(cfg, req.vmId) + TapIssued(cfg, TapName(cfg, req.vmId), e)
    requires var tap := TapName(cfg, req.vmId);
      if e == AddFailed then h2.taps == h1.taps && h2.stuck == h1.stuck
      else tap !in h1.taps && TapReleased(h1.(taps := h1.taps + {tap}), tap, h2)
    ensures Acquired(cfg, req, h0, Err(TapFailed(e)), h2)
  {
    var c := Preparing(cfg, req.vmId) + TapIssued(cfg, TapName(cfg, req.vmId), e);
    assert h2.commands[|h0.commands|..] == c;
    assert IssuedBefore(cfg, req.vmId, TapFailed(e), 0, c);
    if e != AddFailed { assert c[|c| - 1] == LinkDelete(TapName(cfg, req.vmId)) && c[|c| - 1] in h2.commands; }
  }

  lemma StartStageIssued(cfg: Config, id: Bytes, h0: HostState, h2: HostState, e: StartError, h3: HostState)
    requires h2.commands == h0.commands + Preparing(cfg, id) + TapCommands(cfg, TapName(cfg, id)) && h2.commands <= h3.commands
    requires exists pid :: StartIssued(cfg, id, e, pid, h3.commands[|h2.commands|..])
    ensures h0.commands <= h3.commands
    ensures exists pid :: IssuedBefore(cfg, id, StartFailed(e), pid, h3.commands[|h0.commands|..])
  {
    var pid: nat :| StartIssued(cfg, id, e, pid, h3.commands[|h2.commands|..]);
    var before, c := Preparing(cfg, id) + TapCommands(cfg, TapName(cfg, id)), h3.commands[|h0.commands|..];
    assert h2.commands == h0.commands + before;
    assert c == before + h3.commands[|h2.commands|..];
    assert c[|before|..] == h3.commands[|h2.commands|..];
    assert IssuedBefore(cfg, id, StartFailed(e), pid, c);
  }

  lemma StartStageFailed(cfg: Config, req: CreateRequest, h0: HostState, h1: HostState, h2: HostState, e: StartError, h3: HostState)
    requires Staged(cfg, req.vmId, h0, h1, h2)
    requires StartEffect(cfg, req.vmId, h2, Err(e), h3) && h3.logs == h2.logs
    ensures Acquired(cfg, req, h0, Err(StartFailed(e)), h3)
  {
    ConfinedTransitive(cfg, req.vmId, h0.nodes, h1.nodes, h3.nodes);
    StartStageIssued(cfg, req.vmId, h0, h2, e, h3);
  }

  lemma StartStageDone(cfg: Config, req: CreateRequest, h0: HostState, h1: HostState, h2: HostState, q: Acquisition, h3: HostState)
    requires Staged(cfg, req.vmId, h0, h1, h2) && AcquiredPaths(cfg, req, q)
    requires StartEffect(cfg, req.vmId, h2, Ok(q.process), h3)
    requires h3.logs == h2.logs + if cfg.useJailer then {} else {q.process.pid}
    requires Provisions(cfg, req.vmId) <= h3.nodes
    requires h3.commands == h0.commands + Acquiring(cfg, req.vmId, q.process.pid)
    ensures Acquired(cfg, req, h0, Ok(q), h3)
  {
    ConfinedTransitive(cfg, req.vmId, h0.nodes, h1.nodes, h3.nodes);
  }

  /** Without the jailer storage preparation and the process use the same paths. */
  lemma DirectStart(cfg: Config, id: Bytes, before: set<Path>, after: set<Path>)
    requires !cfg.useJailer && DirectFiles(cfg, id) <= before
    requires {SocketPath(cfg, id), LogPath(cfg, id)} <= after
    requires forall p :: p in before && p != SocketPath(cfg, id) ==> p in after
    ensures Provisions(cfg, id) <= after
  {
    FilesAreNoSockets(cfg, id);
  }

  lemma JailedStart(cfg: Config, id: Bytes, before: set<Path>, after: set<Path>)
    requires cfg.useJailer && VMDir(cfg, id) in before
    requires JailFiles(cfg, id) + {SocketPath(cfg, id), LogPath(cfg, id)} <= after
    requires forall p :: p in before && p != SocketPath(cfg, id) ==> p in after
    ensures Provisions(cfg, id) <= after
  {
    FilesAreNoSockets(cfg, id);
  }

  /** The stages before the process is started: storage, then the device. `h1` is the host in between. */
  method StageDirect(host: Host, cfg: Config, req: CreateRequest)
    returns (r: Result<VMStorage, CreateError>, tapDevice: Bytes, cleanups: seq<Cleanup>, ghost h1: HostState)
    requires !cfg.useJailer
    modifies host`st, host`trace
    ensures StagedOr(cfg, req, ErrorOf(r), tapDevice, cleanups, old(host.st), h1, host.st)
    ensures r.Ok? ==>
      && r.value.kernelPath == ApiKernel(cfg, req) && r.value.rootfsPath == ApiRootfs(cfg, req)
      && r.value.socketPath == SocketPath(cfg, req.vmId) && r.value.logPath == LogPath(cfg, req.vmId)
      && DirectFiles(cfg, req.vmId) <= host.st.nodes
    ensures old(host.trace) <= host.trace && StageReported(cfg, req, ErrorOf(r), Since(old(host.trace), host.trace))
  {
    hide Acquired, Confined, TapName, LogPath, DirectFiles, DirectCommands, TapReleased, AcquisitionReported, Supplied, Since;
    cleanups, tapDevice := [], [];
    ghost var h0, t0 := host.st, host.trace;
    var storage := PrepareVMStorage(host, cfg, req.vmId,
      Default(req.kernelPath, cfg.kernelPath), Default(req.rootfsPath, cfg.rootfsPath));
    ghost var t1 := host.trace;
    h1 := host.st;
    StorageReported(cfg, req, storage, Since(t0, t1));
    if storage.Err? {
      StorageStageFailed(cfg, req, h0, storage.error, h1);
      return Err(StorageFailed(storage.error)), tapDevice, cleanups, h1;
    }
    cleanups := cleanups + [CleanupStorage];

    var tap := CreateTAPDevice(host, cfg, req.vmId);
    SinceJoins(t0, t1, host.trace);
    TapReported(cfg, req, tap, Since(t0, t1), Since(t1, host.trace));
    if tap.Err? {
      TapStageFailed(cfg, req, h0, h1, tap.error, host.st);
      return Err(TapFailed(tap.error)), tapDevice, cleanups, h1;
    }
    tapDevice := tap.value;
    cleanups := cleanups + [DeleteTap(tapDevice)];
    r := Ok(storage.value);
  }

  method AcquireDirect(host: Host, cfg: Config, req: CreateRequest)
    returns (r: Result<Acquisition, CreateError>, cleanups: seq<Cleanup>)
    requires !cfg.useJailer && host.st.logs <= host.st.procs.Keys
    modifies host`st, host`clock, host`trace, host`unattached
    ensures cleanups == StackFor(cfg, req.vmId, r)
    ensures Acquired(cfg, req, old(host.st), r, host.st) && host.unattached == old(host.unattached)
    ensures old(host.trace) <= host.trace
    ensures AcquisitionReported(cfg, req, r, host.clock - old(host.clock), Since(old(host.trace), host.trace))
  {
    hide Acquired, Confined, TapName, LogPath, DirectFiles, DirectCommands, Provisions, StartedOnly, StageReported,
      AcquisitionReported, Supplied, StartReported, Since;
    ghost var h0, t0 := host.st, host.trace;
    var storage, tapDevice;
    ghost var h1;
    storage, tapDevice, cleanups, h1 := StageDirect(host, cfg, req);
    ghost var h2, t2 := host.st, host.trace;
    if storage.Err? {
      StageFailedReported(cfg, req, storage.error, host.clock - old(host.clock), Since(t0, t2));
      return Err(storage.error), cleanups;
    }
    var mac := Mac.GenerateMAC(req.vmId);

    var process := StartFirecrackerProcess(host, cfg, req.vmId, storage.value.socketPath, storage.value.logPath);
    SinceJoins(t0, t2, host.trace);
    if process.Err? {
      StartStageFailed(cfg, req, h0, h1, h2, process.error, host.st);
      StartFailedReported(cfg, req, process.error, host.clock - old(host.clock), Since(t0, t2), Since(t2, host.trace));
      return Err(StartFailed(process.error)), cleanups;
    }
    cleanups := cleanups + [KillStarted(process.value)];
    DirectStart(cfg, req.vmId, h2.nodes, host.st.nodes);
    r := Ok(Acquisition(storage.value, process.value, tapDevice, mac));
    StartStageDone(cfg, req, h0, h1, h2, r.value, host.st);
    AcquiredReported(cfg, req, r.value, host.clock - old(host.clock), Since(t0, t2), Since(t2, host.trace));
  }

  /** The same under the jailer, where storage is only the VM directory. */
  method StageJailed(host: Host, cfg: Config, req: CreateRequest)
    returns (r: Result<JailPaths, CreateError>, tapDevice: Bytes, cleanups: seq<Cleanup>, ghost h1: HostState)
    requires cfg.useJailer
    modifies host`st, host`trace
    ensures StagedOr(cfg, req, ErrorOf(r), tapDevice, cleanups, old(host.st), h1, host.st)
    ensures r.Ok? ==>
      && fresh(r.value) && r.value.jailDir == VMDir(cfg, req.vmId) && r.value.logPath == LogPath(cfg, req.vmId)
      && r.value.firecrackerBinary == cfg.binaryPath
      && r.value.kernelPath == Default(req.kernelPath, cfg.kernelPath)
      && r.value.rootfsPath == Default(req.rootfsPath, cfg.rootfsPath)
      && VMDir(cfg, req.vmId) in host.st.nodes
    ensures old(host.trace) <= host.trace && StageReported(cfg, req, ErrorOf(r), Since(old(host.trace), host.trace))
  {
    hide Acquired, Confined, TapName, LogPath, TapReleased, AcquisitionReported, Supplied, Since;
    cleanups, tapDevice := [], [];
    ghost var h0, t0 := host.st, host.trace;
    var jail := SetupJailDirectory(host, cfg, req.vmId,
      Default(req.kernelPath, cfg.kernelPath), Default(req.rootfsPath, cfg.rootfsPath));
    ghost var t1 := host.trace;
    h1 := host.st;
    SinceIs(t0, [Did(MkdirAll(VMDir(cfg, req.vmId)), jail.Ok?)], t1);
    if jail.Err? {
      StorageStageFailed(cfg, req, h0, jail.error, h1);
      JailSetupReported(cfg, req);
      return Err(StorageFailed(jail.error)), tapDevice, cleanups, h1;
    }
    var jailPaths := jail.value;
    cleanups := cleanups + [CleanupJailAndStorage];
    jailPaths.firecrackerBinary := cfg.binaryPath;

    var tap := CreateTAPDevice(host, cfg, req.vmId);
    SinceJoins(t0, t1, host.trace);
    TapReported(cfg, req, tap, Since(t0, t1), Since(t1, host.trace));
    if tap.Err? {
      TapStageFailed(cfg, req, h0, h1, tap.error, host.st);
      return Err(TapFailed(tap.error)), tapDevice, cleanups, h1;
    }
    tapDevice := tap.value;
    cleanups := cleanups + [DeleteTap(tapDevice)];
    r := Ok(jailPaths);
  }

  method AcquireJailed(host: Host, cfg: Config, req: CreateRequest)
    returns (r: Result<Acquisition, CreateError>, cleanups: seq<Cleanup>)
    requires cfg.useJailer
    modifies host`st, host`clock, host`trace, host`unattached
    ensures cleanups == StackFor(cfg, req.vmId, r)
    ensures Acquired(cfg, req, old(host.st), r, host.st) && host.unattached == old(host.unattached)
    ensures old(host.trace) <= host.trace
    ensures AcquisitionReported(cfg, req, r, host.clock - old(host.clock), Since(old(host.trace), host.trace))
  {
    hide Acquired, Confined, TapName, LogPath, JailFiles, JailCommands, Provisions, StartedOnly, SocketPath, StageReported,
      AcquisitionReported, Supplied, StartReported, Since, JailSupply, JailSteps, Tried;
    ghost var h0, t0 := host.st, host.trace;
    var jail, tapDevice;
    ghost var h1;
    jail, tapDevice, cleanups, h1 := StageJailed(host, cfg, req);
    ghost var h2, t2 := host.st, host.trace;
    if jail.Err? {
      StageFailedReported(cfg, req, jail.error, host.clock - old(host.clock), Since(t0, t2));
      return Err(jail.error), cleanups;
    }
    var jailPaths := jail.value;
    var mac := Mac.GenerateMAC(req.vmId);

    ghost var binary, kernel, rootfs := jailPaths.firecrackerBinary, jailPaths.kernelPath, jailPaths.rootfsPath;
    var process := StartJailedProcess(host, cfg, req.vmId, jailPaths);
    SinceJoins(t0, t2, host.trace);
    if process.Err? {
      StartStageFailed(cfg, req, h0, h1, h2, process.error, host.st);
      StartFailedReported(cfg, req, process.error, host.clock - old(host.clock), Since(t0, t2), Since(t2, host.trace));
      return Err(StartFailed(process.error)), cleanups;
    }
    cleanups := cleanups + [KillStarted(process.value)];
    JailedStart(cfg, req.vmId, h2.nodes, host.st.nodes);
    JailSupplied(cfg, req, binary, kernel, rootfs, Since(t2, host.trace));
    var storage := VMStorage(jailPaths.jailDir, jailPaths.kernelPath, jailPaths.rootfsPath,
                             jailPaths.socketPath.value, jailPaths.logPath);
    r := Ok(Acquisition(storage, process.value, tapDevice, mac));
    StartStageDone(cfg, req, h0, h1, h2, r.value, host.st);
    AcquiredReported(cfg, req, r.value, host.clock - old(host.clock), Since(t0, t2), Since(t2, host.trace));
  }

  lemma JailSupplied(cfg: Config, req: CreateRequest, binary: Bytes, kernel: Bytes, rootfs: Bytes, t: seq<Act>)
    requires cfg.useJailer && JailSupply(cfg, req.vmId, binary, kernel, rootfs, t)
    requires binary == cfg.binaryPath
    requires kernel == Default(req.kernelPath, cfg.kernelPath) && rootfs == Default(req.rootfsPath, cfg.rootfsPath)
    ensures Supplied(cfg, req, t)
  {
  }

  lemma JailSetupReported(cfg: Config, req: CreateRequest)
    ensures StageReported(cfg, req, Some(StorageFailed(MkdirFailed)), [Did(MkdirAll(VMDir(cfg, req.vmId)), false)])
  {
  }

  // ------------------------------------------------------------------------- rolling back

  /** Every resource acquired since `h` is either on the stack or on record. */
  ghost predicate Covered(cfg: Config, id: Bytes, stack: seq<Cleanup>, h: HostState, m: HostState) {
    && CoveredTap(TapName(cfg, id), stack, h, m)
    && CoveredProcs(stack, h, m)
    && Confined(cfg, id, h.nodes, m.nodes) && m.residue == h.residue
    && stack != [] && stack[0] == StorageCleanup(cfg)
  }

  predicate CoveredTap(tap: Bytes, stack: seq<Cleanup>, h: HostState, m: HostState) {
    || (m.taps == h.taps && m.stuck == h.stuck && DeleteTap(tap) !in stack)
    || (tap !in h.taps && m.taps == h.taps + {tap} && m.stuck == h.stuck && DeleteTap(tap) in stack)
    || (tap !in h.taps && m.taps == h.taps + {tap} && m.stuck == h.stuck + {tap} && DeleteTap(tap) !in stack
        && LinkDelete(tap) in m.commands)
  }

  ghost predicate CoveredProcs(stack: seq<Cleanup>, h: HostState, m: HostState) {
    && Aged(h.procs, m.procs)
    && (forall k :: k in m.procs && k !in h.procs && m.procs[k].status.Running? ==> k in Kills(stack))
    && (forall k :: k in Kills(stack) ==> k !in h.procs && k in m.procs)
    && h.logs <= m.logs && (forall k :: k in m.logs && k !in h.logs ==> k !in h.procs && k in m.procs)
  }

  lemma KillsOfStackFor(cfg: Config, id: Bytes, r: Result<Acquisition, CreateError>)
    ensures Kills(StackFor(cfg, id, r)) == if r.Ok? then {r.value.process.pid} else {}
  {
    if r.Ok? { assert StackFor(cfg, id, r)[2] == KillStarted(r.value.process); }
  }

  lemma AcquiredCovers(cfg: Config, req: CreateRequest, h: HostState, r: Result<Acquisition, CreateError>, m: HostState)
    requires Acquired(cfg, req, h, r, m) && h.stuck <= h.taps && LogsOk(h)
    requires !(r.Err? && r.error.StorageFailed?)
    ensures Covered(cfg, req.vmId, StackFor(cfg, req.vmId, r), h, m)
  {
    KillsOfStackFor(cfg, req.vmId, r);
    var stack := StackFor(cfg, req.vmId, r);
    assert r.Ok? || r.error.StartFailed? ==> stack[1] == DeleteTap(TapName(cfg, req.vmId));
  }

  lemma RolledBackTaps(tap: Bytes, stack: seq<Cleanup>, h: HostState, m: HostState, h': HostState)
    requires CoveredTap(tap, stack, h, m) && h.stuck <= h.taps && UndoTaps(tap, stack, m, h')
    requires DeleteTap(tap) in stack ==> (tap in h'.taps ==> tap in h'.stuck)
    ensures h.taps <= h'.taps <= h.taps + {tap} && h'.stuck == h.stuck + (h'.taps - h.taps)
    ensures tap in h.taps ==> h'.taps == h.taps
    ensures h'.taps != h.taps ==> DeleteTap(tap) in stack || LinkDelete(tap) in m.commands
  {
  }

  lemma {:induction false} UndoIssuesDelete(cfg: Config, id: Bytes, stack: seq<Cleanup>, tap: Bytes)
    requires DeleteTap(tap) in stack
    ensures LinkDelete(tap) in UndoCommands(cfg, id, stack)
  {
    if stack[|stack| - 1] != DeleteTap(tap) {
      UndoIssuesDelete(cfg, id, stack[..|stack| - 1], tap);
    }
  }

  lemma RolledBackProcs(stack: seq<Cleanup>, h: HostState, m: HostState, h': HostState)
    requires CoveredProcs(stack, h, m) && UndoProcs(Kills(stack), m, h')
    requires forall k :: k in Kills(stack) ==> !Alive(h', k)
    requires LogsOk(h) && LogsOk(h')
    ensures Aged(h.procs, h'.procs) && NothingLeftRunning(h.procs, h'.procs)
    ensures h.logs <= h'.logs <= m.logs
    ensures forall k :: k in h'.logs && k !in h.logs ==> k !in h.procs && k in h'.procs && h'.procs[k].status.Exited?
  {
    forall k | k in h.procs ensures k in h'.procs && AgedProc(h.procs[k], h'.procs[k]) {
      assert AgedProc(h.procs[k], m.procs[k]) && AgedProc(m.procs[k], h'.procs[k]);
    }
    forall k | k in h'.procs && k !in h.procs ensures !h'.procs[k].status.Running? {
      assert Alive(h', k) ==> Alive(m, k);
    }
    forall k | k in h'.logs && k !in h.logs ensures k !in h.procs && k in h'.procs && h'.procs[k].status.Exited? {
      assert k in m.logs;
    }
  }

  lemma RolledBackTrees(cfg: Config, id: Bytes, h: HostState, m: HostState, h': HostState)
    requires Confined(cfg, id, h.nodes, m.nodes) && m.residue == h.residue
    requires UndoTrees(cfg, id, m, h')
    ensures Confined(cfg, id, h.nodes, h'.nodes) && ResidueOnlyOf(cfg, id, h, h')
  {
    ShrunkIsConfined(cfg, id, m.nodes, h'.nodes);
  }

  /** Undoing a whole stack issues the teardown sequence, or the tail of it that was due. */
  lemma UndoIsTeardown(cfg: Config, id: Bytes, r: Result<Acquisition, CreateError>, pid: nat)
    ensures r.Ok? ==> UndoCommands(cfg, id, StackFor(cfg, id, r)) == Teardown(cfg, id, r.value.process.pid)
    ensures r.Err? && !r.error.ApiFailed? ==>
      UndoCommands(cfg, id, StackFor(cfg, id, r)) == RollingBack(cfg, id, r.error, pid)
  {
    var sc, dt := StorageCleanup(cfg), DeleteTap(TapName(cfg, id));
    assert [sc][..0] == [] && [sc, dt][..1] == [sc];
    assert UndoCommands(cfg, id, [sc]) == Commands(cfg, id, sc);
    assert UndoCommands(cfg, id, [sc, dt]) == Commands(cfg, id, dt) + Commands(cfg, id, sc);
    if r.Ok? {
      var k := KillStarted(r.value.process);
      assert [sc, dt, k][..2] == [sc, dt];
      assert UndoCommands(cfg, id, [sc, dt, k]) == Commands(cfg, id, k) + (Commands(cfg, id, dt) + Commands(cfg, id, sc));
    }
  }
}

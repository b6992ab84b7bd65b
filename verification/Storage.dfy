/** The storage manager: a VM directory per id, and under the jailer a jail directory as well. */
module Storage {
  import opened GoStrings
  import opened GoPath
  import opened Environment
  import opened Layout

  datatype VMStorage = VMStorage(
    vmDir: Path,
    kernelPath: Bytes,   // as sent to the API
    rootfsPath: Bytes,
    socketPath: Path,
    logPath: Path)

  datatype PrepareError = MkdirFailed | KernelFailed | RootfsFailed

  /** Paths of a jailed VM; the jailed start overwrites four of them. */
  class JailPaths {
    var jailDir: Path
    var firecrackerBinary: Bytes
    var kernelPath: Bytes
    var rootfsPath: Bytes
    var socketPath: Option<Path>
    const logPath: Path

    constructor (jailDir: Path, kernelPath: Bytes, rootfsPath: Bytes, logPath: Path)
      ensures this.jailDir == jailDir && this.firecrackerBinary == []
      ensures this.kernelPath == kernelPath && this.rootfsPath == rootfsPath
      ensures this.socketPath == None && this.logPath == logPath
    {
      this.jailDir, this.firecrackerBinary := jailDir, [];
      this.kernelPath, this.rootfsPath := kernelPath, rootfsPath;
      this.socketPath, this.logPath := None, logPath;
    }
  }

  function SocketPath(cfg: Config, id: Bytes): Path {
    if cfg.useJailer then JailDir(cfg, id).Child(ROOT_DIR).Child(RUN_DIR).Child(SOCKET_FILE)
    else VMDir(cfg, id).Child(SOCKET_FILE)
  }

  /** The socket lies below the VM's own tree and is not its root. */
  lemma SocketInside(cfg: Config, id: Bytes)
    ensures InTrees(cfg, id, SocketPath(cfg, id))
    ensures !IsRoot(cfg, id, SocketPath(cfg, id))
  {
    assert |VMDir(cfg, id).segs| == |cfg.vmsDir.segs| + 1;
    assert |JailDir(cfg, id).segs| == |cfg.vmsDir.segs| + 2;
    if cfg.useJailer {
      assert |SocketPath(cfg, id).segs| == |cfg.vmsDir.segs| + 5;
      assert SocketPath(cfg, id).segs[..|JailDir(cfg, id).segs|] == JailDir(cfg, id).segs;
    } else {
      assert |SocketPath(cfg, id).segs| == |cfg.vmsDir.segs| + 2;
      assert SocketPath(cfg, id).segs[..|VMDir(cfg, id).segs|] == VMDir(cfg, id).segs;
    }
  }

  function LogPath(cfg: Config, id: Bytes): Path { VMDir(cfg, id).Child(LOG_FILE) }

  /** Below the VMs directory, whatever string that is, a path and its text determine each other. */
  lemma TextBelow(cfg: Config, vmsDir: Bytes, segs: seq<Bytes>)
    requires cfg.vmsDir == Parse(vmsDir) && segs != [] && forall i :: 0 <= i < |segs| ==> Ordinary(segs[i])
    ensures var p := Path(cfg.vmsDir.rooted, cfg.vmsDir.segs + segs); Render(p) == Join([vmsDir] + segs) && Parse(Render(p)) == p
  {
    JoinOrdinary(vmsDir, segs);
    ParseRender(Path(cfg.vmsDir.rooted, cfg.vmsDir.segs + segs));
  }

  lemma FileNamesAreOrdinary()
    ensures Ordinary(FIRECRACKER) && Ordinary(SOCKET_FILE) && Ordinary(LOG_FILE) && Ordinary(KERNEL_FILE) && Ordinary(ROOTFS_FILE)
    ensures Ordinary(ROOT_DIR) && Ordinary(RUN_DIR)
  {
  }

  /** The directories of a VM are those with these texts. */
  lemma DirectoriesAreTheTexts(cfg: Config, vmsDir: Bytes, id: Bytes)
    requires cfg.vmsDir == Parse(vmsDir) && Ordinary(id)
    ensures Render(VMDir(cfg, id)) == Join([vmsDir, id])
    ensures var firecracker := [0x66, 0x69, 0x72, 0x65, 0x63, 0x72, 0x61, 0x63, 0x6B, 0x65, 0x72];
      Render(JailDir(cfg, id)) == Join([vmsDir, firecracker, id])
  {
    hide Parse, Render, Join;
    FileNamesAreOrdinary();
    TextBelow(cfg, vmsDir, [id]);
    TextBelow(cfg, vmsDir, [FIRECRACKER, id]);
    assert [vmsDir] + [id] == [vmsDir, id] && [vmsDir] + [FIRECRACKER, id] == [vmsDir, FIRECRACKER, id];
    assert JailDir(cfg, id).segs == cfg.vmsDir.segs + [FIRECRACKER, id];
  }

  /** A file in the VM directory. */
  lemma FilesAreTheTexts(cfg: Config, vmsDir: Bytes, id: Bytes, file: Bytes)
    requires cfg.vmsDir == Parse(vmsDir) && Ordinary(id) && Ordinary(file)
    ensures Render(VMDir(cfg, id).Child(file)) == Join([vmsDir, id, file])
    ensures Parse(Render(VMDir(cfg, id).Child(file))) == VMDir(cfg, id).Child(file)
  {
    TextBelow(cfg, vmsDir, [id, file]);
    assert [vmsDir] + [id, file] == [vmsDir, id, file];
    assert VMDir(cfg, id).Child(file).segs == cfg.vmsDir.segs + [id, file];
  }

  /** The log is the file with this text. */
  lemma LogIsTheText(cfg: Config, vmsDir: Bytes, id: Bytes)
    requires cfg.vmsDir == Parse(vmsDir) && Ordinary(id)
    ensures
      var firecracker := [0x66, 0x69, 0x72, 0x65, 0x63, 0x72, 0x61, 0x63, 0x6B, 0x65, 0x72];
      Render(LogPath(cfg, id)) == Join([vmsDir, id, firecracker + [0x2E, 0x6C, 0x6F, 0x67]])  // .log
  {
    hide Parse, Render, Join;
    FileNamesAreOrdinary();
    FilesAreTheTexts(cfg, vmsDir, id, LOG_FILE);
    assert FIRECRACKER + [0x2E, 0x6C, 0x6F, 0x67] == LOG_FILE;
  }

  /** The socket is the file with this text. */
  lemma SocketIsTheText(cfg: Config, vmsDir: Bytes, id: Bytes)
    requires cfg.vmsDir == Parse(vmsDir) && Ordinary(id)
    ensures
      var firecracker := [0x66, 0x69, 0x72, 0x65, 0x63, 0x72, 0x61, 0x63, 0x6B, 0x65, 0x72];
      var root, run := [0x72, 0x6F, 0x6F, 0x74], [0x72, 0x75, 0x6E];
      var socket := firecracker + [0x2E, 0x73, 0x6F, 0x63, 0x6B, 0x65, 0x74];  // .socket
      Render(SocketPath(cfg, id)) ==
        if cfg.useJailer then Join([vmsDir, firecracker, id, root, run, socket]) else Join([vmsDir, id, socket])
  {
    hide Parse, Render, Join;
    FileNamesAreOrdinary();
    assert FIRECRACKER + [0x2E, 0x73, 0x6F, 0x63, 0x6B, 0x65, 0x74] == SOCKET_FILE;
    if cfg.useJailer {
      var below := [FIRECRACKER, id, ROOT_DIR, RUN_DIR, SOCKET_FILE];
      TextBelow(cfg, vmsDir, below);
      assert [vmsDir] + below == [vmsDir, FIRECRACKER, id, ROOT_DIR, RUN_DIR, SOCKET_FILE];
      assert SocketPath(cfg, id).segs == cfg.vmsDir.segs + below;
    } else {
      FilesAreTheTexts(cfg, vmsDir, id, SOCKET_FILE);
    }
  }

  /** What storage preparation puts into the VM directory. */
  function DirectFiles(cfg: Config, id: Bytes): set<Path> {
    {VMDir(cfg, id), VMDir(cfg, id).Child(ROOTFS_FILE)} +
    if cfg.useOverlay then {VMDir(cfg, id).Child(UPPER_DIR), VMDir(cfg, id).Child(WORK_DIR)}
    else {VMDir(cfg, id).Child(KERNEL_FILE)}
  }

  /** What the jail is filled with. */
  function JailFiles(cfg: Config, id: Bytes): set<Path> {
    var root := JailDir(cfg, id).Child(ROOT_DIR);
    {JailDir(cfg, id), root.Child(RUN_DIR), root.Child(FIRECRACKER), root.Child(JAILED_KERNEL_FILE), root.Child(ROOTFS_FILE)}
  }

  /** The commands that make the directories of an overlay. */
  function OverlayCommands(cfg: Config, dir: Path): seq<Cmd> {
    if cfg.useOverlay then [MkdirAll(dir.Child(UPPER_DIR)), MkdirAll(dir.Child(WORK_DIR))] else []
  }

  /** The commands that make the directories of storage preparation. */
  function DirectCommands(cfg: Config, id: Bytes): seq<Cmd> {
    [MkdirAll(VMDir(cfg, id))] + OverlayCommands(cfg, VMDir(cfg, id))
  }

  /** The commands of a storage preparation that failed at `e`. */
  predicate StorageIssued(cfg: Config, id: Bytes, e: PrepareError, c: seq<Cmd>) {
    match e
    case MkdirFailed => c == [MkdirAll(VMDir(cfg, id))]
    case KernelFailed => c == [MkdirAll(VMDir(cfg, id))]
    case RootfsFailed => c <= DirectCommands(cfg, id) && |c| >= if cfg.useOverlay then 2 else 1
  }

  function JailCommands(cfg: Config, id: Bytes): seq<Cmd> {
    var root := JailDir(cfg, id).Child(ROOT_DIR);
    [MkdirAll(root), MkdirAll(root.Child(RUN_DIR))]
  }

  /** None of these is the socket. */
  lemma FilesAreNoSockets(cfg: Config, id: Bytes)
    ensures !cfg.useJailer ==> SocketPath(cfg, id) !in DirectFiles(cfg, id)
    ensures SocketPath(cfg, id) != VMDir(cfg, id) && SocketPath(cfg, id) != LogPath(cfg, id)
    ensures cfg.useJailer ==> SocketPath(cfg, id) !in JailFiles(cfg, id)
  {
    var n := |cfg.vmsDir.segs|;
    assert VMDir(cfg, id).segs[n] == id && |VMDir(cfg, id).segs| == n + 1;
    forall f: Bytes ensures VMDir(cfg, id).Child(f).segs[n + 1] == f && |VMDir(cfg, id).Child(f).segs| == n + 2 {
    }
    if cfg.useJailer {
      assert |SocketPath(cfg, id).segs| == n + 5;
    } else {
      assert SocketPath(cfg, id).segs[n + 1] == SOCKET_FILE;
    }
  }

  /** Only `nodes` and `commands` changed, the latter by appending. */
  predicate OnlyFiles(s: HostState, s': HostState) {
    s' == s.(nodes := s'.nodes, commands := s'.commands) && s.commands <= s'.commands
  }

  method PrepareVMStorage(host: Host, cfg: Config, id: Bytes, kernelPath: Bytes, rootfsPath: Bytes)
    returns (r: Result<VMStorage, PrepareError>)
    modifies host`st, host`trace
    ensures OnlyFiles(old(host.st), host.st)
    ensures Confined(cfg, id, old(host.st.nodes), host.st.nodes)
    ensures r.Ok? ==>
      && r.value.vmDir == VMDir(cfg, id)
      && r.value.kernelPath == (if cfg.useOverlay then kernelPath else Render(VMDir(cfg, id).Child(KERNEL_FILE)))
      && r.value.rootfsPath == Render(VMDir(cfg, id).Child(ROOTFS_FILE))
      && r.value.socketPath == VMDir(cfg, id).Child(SOCKET_FILE)
      && r.value.logPath == LogPath(cfg, id)
      && DirectFiles(cfg, id) <= host.st.nodes
      && host.st.commands == old(host.st.commands) + DirectCommands(cfg, id)
    ensures r.Err? ==> StorageIssued(cfg, id, r.error, host.st.commands[|old(host.st.commands)|..])
    // The directory exists afterwards unless making it was what failed; then the tree is as before.
    ensures r != Err(MkdirFailed) ==> VMDir(cfg, id) in host.st.nodes
    ensures r == Err(MkdirFailed) ==>
      forall p :: Under(VMDir(cfg, id), p) ==> (p in host.st.nodes <==> p in old(host.st.nodes))
    // Every step reported success up to the one that failed.
    ensures old(host.trace) <= host.trace
    ensures
      var dir, t := VMDir(cfg, id), Since(old(host.trace), host.trace);
      && Tried([Did(MkdirAll(dir), true)] +
               if cfg.useOverlay then
                 [ Did(MkdirAll(dir.Child(UPPER_DIR)), true), Did(MkdirAll(dir.Child(WORK_DIR)), true),
                   Overlaid(rootfsPath, dir.Child(ROOTFS_FILE), true) ]
               else
                 [Copied(kernelPath, dir.Child(KERNEL_FILE), true), Copied(rootfsPath, dir.Child(ROOTFS_FILE), true)],
               r.Ok?, t)
      && (r == Err(MkdirFailed) <==> r.Err? && |t| == 1)
      && (r == Err(KernelFailed) <==> r.Err? && |t| == 2 && !cfg.useOverlay)
  {
    hide Tried, Since;
    var vmDir := VMDir(cfg, id);
    ghost var t0, first, placing := host.trace, [Did(MkdirAll(vmDir), true)], Placing(cfg, vmDir, kernelPath, rootfsPath);
    var ok := host.RunMkdirAll(vmDir);
    ghost var t1 := host.trace;
    if !ok {
      SetOut(first + placing, t0);
      OneStep(first + placing, 0, t0, t0, false, t1);
      return Err(MkdirFailed);
    }
    var failed := PlaceFiles(host, cfg, vmDir, kernelPath, rootfsPath);
    PreparedTrace(first, placing, t0, t1, failed.None?, host.trace);
    if failed.Some? {
      return Err(failed.value);
    }
    var kernel := if cfg.useOverlay then kernelPath else Render(vmDir.Child(KERNEL_FILE));
    r := Ok(VMStorage(vmDir, kernel, Render(vmDir.Child(ROOTFS_FILE)), vmDir.Child(SOCKET_FILE), vmDir.Child(LOG_FILE)));
  }

  lemma PreparedTrace(first: seq<Act>, placing: seq<Act>, t0: seq<Act>, t1: seq<Act>, ok: bool, t2: seq<Act>)
    requires t1 == t0 + first && t1 <= t2 && Tried(placing, ok, Since(t1, t2)) && placing != []
    ensures t0 <= t2 && Tried(first + placing, ok, Since(t0, t2))
    ensures |Since(t0, t2)| == |first| + |Since(t1, t2)| && Since(t1, t2) != []
  {
    SinceIs(t0, first, t1);
    SinceJoins(t0, t1, t2);
    TriedMore(first, placing, ok, Since(t1, t2));
  }

  /** The steps that make an overlay, in order. */
  function Overlaying(base: Bytes, overlay: Path, workDir: Path): seq<Act> {
    [ Did(MkdirAll(workDir.Child(UPPER_DIR)), true), Did(MkdirAll(workDir.Child(WORK_DIR)), true),
      Overlaid(base, overlay, true) ]
  }

  /** The steps of a storage preparation inside `dir`, in order. */
  function Placing(cfg: Config, dir: Path, kernelPath: Bytes, rootfsPath: Bytes): seq<Act> {
    if cfg.useOverlay then Overlaying(rootfsPath, dir.Child(ROOTFS_FILE), dir)
    else [Copied(kernelPath, dir.Child(KERNEL_FILE), true), Copied(rootfsPath, dir.Child(ROOTFS_FILE), true)]
  }

  /** The part of PrepareVMStorage that runs once the directory is there. */
  method PlaceFiles(host: Host, cfg: Config, dir: Path, kernelPath: Bytes, rootfsPath: Bytes)
    returns (failed: Option<PrepareError>)
    requires dir in host.st.nodes
    modifies host`st, host`trace
    ensures OnlyFiles(old(host.st), host.st) && old(host.st.nodes) <= host.st.nodes
    ensures forall p :: p in host.st.nodes ==> p in old(host.st.nodes) || Under(dir, p) || Under(p, dir)
    ensures failed.None? ==>
      && dir.Child(ROOTFS_FILE) in host.st.nodes
      && if cfg.useOverlay then {dir.Child(UPPER_DIR), dir.Child(WORK_DIR)} <= host.st.nodes
         else dir.Child(KERNEL_FILE) in host.st.nodes
    ensures
      var c := host.st.commands[|old(host.st.commands)|..];
      && (failed.None? ==> c == OverlayCommands(cfg, dir))
      && (failed.Some? ==> c <= OverlayCommands(cfg, dir) && |c| >= if cfg.useOverlay then 1 else 0)
    ensures old(host.trace) <= host.trace
    ensures
      var t := Since(old(host.trace), host.trace);
      && Tried(Placing(cfg, dir, kernelPath, rootfsPath), failed.None?, t)
      && failed != Some(MkdirFailed)
      && (failed == Some(KernelFailed) <==> failed.Some? && |t| == 1 && !cfg.useOverlay)
  {
    if cfg.useOverlay {
      var ok := CreateOverlay(host, rootfsPath, dir.Child(ROOTFS_FILE), dir);
      return if ok then None else Some(RootfsFailed);
    }
    hide Along, Tried, Since;
    ghost var t0 := host.trace;
    ghost var steps := Placing(cfg, dir, kernelPath, rootfsPath);
    SetOut(steps, t0);
    var ok := host.CopyFile(kernelPath, dir.Child(KERNEL_FILE));
    ghost var t1 := host.trace;
    OneStep(steps, 0, t0, t0, ok, t1);
    if !ok {
      return Some(KernelFailed);
    }
    ok := host.CopyFile(rootfsPath, dir.Child(ROOTFS_FILE));
    OneStep(steps, 1, t0, t1, ok, host.trace);
    failed := if ok then None else Some(RootfsFailed);
  }

  method CreateOverlay(host: Host, base: Bytes, overlay: Path, workDir: Path) returns (ok: bool)
    requires Under(workDir, overlay) && workDir in host.st.nodes
    modifies host`st, host`trace
    ensures OnlyFiles(old(host.st), host.st)
    ensures old(host.st.nodes) <= host.st.nodes
    ensures forall p :: p in host.st.nodes ==> p in old(host.st.nodes) || Under(workDir, p) || Under(p, workDir)
    ensures ok ==>
      && {workDir.Child(UPPER_DIR), workDir.Child(WORK_DIR), overlay} <= host.st.nodes
      && host.st.commands == old(host.st.commands) + [MkdirAll(workDir.Child(UPPER_DIR)), MkdirAll(workDir.Child(WORK_DIR))]
    ensures !ok ==>
      || host.st.commands == old(host.st.commands) + [MkdirAll(workDir.Child(UPPER_DIR))]
      || host.st.commands == old(host.st.commands) + [MkdirAll(workDir.Child(UPPER_DIR)), MkdirAll(workDir.Child(WORK_DIR))]
    ensures old(host.trace) <= host.trace
    ensures Tried(Overlaying(base, overlay, workDir), ok, Since(old(host.trace), host.trace))
  {
    hide Along, Tried, Since;
    ghost var t0 := host.trace;
    ghost var steps := Overlaying(base, overlay, workDir);
    SetOut(steps, t0);
    ok := host.RunMkdirAll(workDir.Child(UPPER_DIR));
    ghost var t1 := host.trace;
    OneStep(steps, 0, t0, t0, ok, t1);
    if !ok { return; }
    ok := host.RunMkdirAll(workDir.Child(WORK_DIR));
    ghost var t2 := host.trace;
    OneStep(steps, 1, t0, t1, ok, t2);
    if !ok { return; }
    ok := host.RunCreateImage(base, overlay);
    OneStep(steps, 2, t0, t2, ok, host.trace);
  }

  method CleanupVMStorage(host: Host, cfg: Config, id: Bytes) returns (ok: bool)
    modifies host`st, host`trace
    ensures TreeRemoved(VMDir(cfg, id), old(host.st), host.st)
    ensures !ok <==> VMDir(cfg, id) in host.st.residue
    ensures host.trace == old(host.trace) + [Did(RemoveAll(VMDir(cfg, id)), ok)]
  {
    ok := host.RunRemoveAll(VMDir(cfg, id));
  }

  /** `root` was removed, or what is left of it is on record as residue; nothing else changed. */
  ghost predicate TreeRemoved(root: Path, s: HostState, s': HostState) {
    && s' == s.(nodes := s'.nodes, residue := s'.residue, commands := s.commands + [RemoveAll(root)])
    && s'.nodes <= s.nodes
    && (forall p :: p in s.nodes && !Under(root, p) ==> p in s'.nodes)
    && (s'.residue == s.residue + {root} || (s'.residue == s.residue - {root} && !Occupied(s'.nodes, root)))
  }

  method SetupJailDirectory(host: Host, cfg: Config, id: Bytes, kernelPath: Bytes, rootfsPath: Bytes)
    returns (r: Result<JailPaths, PrepareError>)
    modifies host`st, host`trace
    ensures OnlyFiles(old(host.st), host.st)
    ensures Confined(cfg, id, old(host.st.nodes), host.st.nodes)
    ensures r.Ok? ==>
      && fresh(r.value)
      && r.value.jailDir == VMDir(cfg, id)
      && r.value.kernelPath == kernelPath
      && r.value.rootfsPath == rootfsPath
      && r.value.firecrackerBinary == []
      && r.value.logPath == LogPath(cfg, id)
      && VMDir(cfg, id) in host.st.nodes
      && host.st.commands == old(host.st.commands) + [MkdirAll(VMDir(cfg, id))]
    ensures r.Err? ==> r.error == MkdirFailed && host.st.commands == old(host.st.commands) + [MkdirAll(VMDir(cfg, id))]
    ensures r.Err? ==> forall p :: Under(VMDir(cfg, id), p) ==> (p in host.st.nodes <==> p in old(host.st.nodes))
    ensures host.trace == old(host.trace) + [Did(MkdirAll(VMDir(cfg, id)), r.Ok?)]
    ensures r.Err? && cfg.useJailer ==>
      forall p :: Under(JailDir(cfg, id), p) ==> (p in host.st.nodes <==> p in old(host.st.nodes))
  {
    var vmDir := VMDir(cfg, id);
    var ok := host.RunMkdirAll(vmDir);
    if !ok {
      return Err(MkdirFailed);
    }
    var paths := new JailPaths(vmDir, kernelPath, rootfsPath, vmDir.Child(LOG_FILE));
    r := Ok(paths);
  }

  method CleanupJail(host: Host, cfg: Config, id: Bytes) returns (ok: bool)
    modifies host`st, host`trace
    ensures TreeRemoved(JailDir(cfg, id), old(host.st), host.st)
    ensures !ok <==> JailDir(cfg, id) in host.st.residue
    ensures host.trace == old(host.trace) + [Did(RemoveAll(JailDir(cfg, id)), ok)]
  {
    ok := host.RunRemoveAll(JailDir(cfg, id));
  }
}

/** What a registered VM goes back to: the creation that registered it, and what that had given it. */
module Creations {
  import opened GoStrings
  import opened GoPath
  import opened Environment
  import opened Layout
  import opened Storage
  import opened Process
  import opened Agent
  import opened Runs
  import Mac

  /** The VM that `req` created with record `rec` is registered, and still has what it was created with. */
  ghost predicate CreatedAs(cfg: Config, req: CreateRequest, rec: VMRec, a: AgentState) {
    var id, pid := req.vmId, rec.process.pid;
    && rec.info == InfoOf(req, SocketPath(cfg, id)) && rec.process.socketPath == SocketPath(cfg, id) && rec.tap == TapName(cfg, id)
    && id in a.vms && (a.vms[id] == rec || a.vms[id] == rec.(state := STOPPED))
    && pid in a.host.procs && ConfigCalls(cfg, req) <= a.host.procs[pid].calls
    && Provisions(cfg, id) - {SocketPath(cfg, id)} <= a.host.nodes
  }

  lemma AtFirst(cfg: Config, a: AgentState, req: CreateRequest, rec: VMRec, a': AgentState)
    requires CreateOk(cfg, a, req, rec, a')
    ensures CreatedAs(cfg, req, rec, a')
  {
    hide Provisions, SocketPath, TapName, ConfigCalls;
  }

  lemma StaysThroughOthers(cfg: Config, req: CreateRequest, rec: VMRec, a: AgentState, a': AgentState)
    requires CreatedAs(cfg, req, rec, a) && Spared(cfg, req.vmId, a, a')
    ensures CreatedAs(cfg, req, rec, a')
  {
    ProvisionsInside(cfg, req.vmId);
    hide Provisions, SocketPath, TapName, ConfigCalls, InTrees;
  }

  lemma StaysThroughStop(cfg: Config, req: CreateRequest, rec: VMRec, a: AgentState, force: bool, ok: bool, a': AgentState)
    requires CreatedAs(cfg, req, rec, a) && StopStep(a, req.vmId, force, ok, a')
    ensures CreatedAs(cfg, req, rec, a')
  {
    hide Provisions, SocketPath, TapName, ConfigCalls, StopCommands;
  }

  lemma Stays(cfg: Config, foreign: set<Bytes>, req: CreateRequest, rec: VMRec, a: AgentState, ev: Event, a': AgentState)
    requires Inv(cfg, foreign, a) && CreatedAs(cfg, req, rec, a) && Step(cfg, a, ev, a') && req.vmId in a'.vms
    ensures CreatedAs(cfg, req, rec, a')
  {
    if !Concerns(ev, req.vmId) {
      StepSpares(cfg, foreign, a, ev, a', req.vmId);
      StaysThroughOthers(cfg, req, rec, a, a');
    } else if ev.StopReturned? {
      StaysThroughStop(cfg, req, rec, a, ev.force, ev.ok, a');
    }
  }

  /** Only a creation registers a VM. */
  lemma Appears(cfg: Config, a: AgentState, ev: Event, a': AgentState, id: Bytes)
    requires Step(cfg, a, ev, a') && id !in a.vms && id in a'.vms
    ensures ev.Created? && ev.req.vmId == id && CreatedAs(cfg, ev.req, ev.rec, a')
  {
    if ev.Created? { AtFirst(cfg, a, ev.req, ev.rec, a'); }
  }

  lemma {:induction false} RegisteredWasCreated(cfg: Config, foreign: set<Bytes>, states: seq<AgentState>, events: seq<Event>,
                                                i: nat, id: Bytes) returns (j: nat)
    requires Run(cfg, states, events) && Init(cfg, foreign, states[0]) && i < |states| && id in states[i].vms
    ensures j < i && events[j].Created? && events[j].req.vmId == id
    ensures CreatedAs(cfg, events[j].req, events[j].rec, states[i])
    ensures forall k :: j < k < i ==> events[k] != Deleted(id, true)
  {
    hide Inv, CreatedAs, Step;
    if i == 0 {
      assert false;
    } else if id in states[i - 1].vms {
      j := RegisteredWasCreated(cfg, foreign, states, events, i - 1, id);
      RunKeepsInv(cfg, foreign, states, events, i - 1);
      hide Init;
      Stays(cfg, foreign, events[j].req, events[j].rec, states[i - 1], events[i - 1], states[i]);
      NotDeleted(cfg, states[i - 1], events[i - 1], states[i], id);
    } else {
      Appears(cfg, states[i - 1], events[i - 1], states[i], id);
      j := i - 1;
    }
  }

  lemma NotDeleted(cfg: Config, a: AgentState, ev: Event, a': AgentState, id: Bytes)
    requires Step(cfg, a, ev, a') && id in a'.vms
    ensures ev != Deleted(id, true)
  {
  }

  // -------------------------------------------------------------- what the instance was told

  /** What the five requests say, as texts. */
  lemma RequestsInTexts(cfg: Config, vmsDir: Bytes, req: CreateRequest)
    requires cfg.vmsDir == Parse(vmsDir) && Ordinary(req.vmId)
    ensures
      var vmlinux := [0x76, 0x6D, 0x6C, 0x69, 0x6E, 0x75, 0x78];
      var rootfs := [0x72, 0x6F, 0x6F, 0x74, 0x66, 0x73, 0x2E, 0x65, 0x78, 0x74, 0x34];  // rootfs.ext4
      && ApiKernel(cfg, req) ==
           (if cfg.useJailer then [0x2F] + vmlinux
            else if cfg.useOverlay then (if req.kernelPath == [] then cfg.kernelPath else req.kernelPath)
            else Join([vmsDir, req.vmId, vmlinux + [0x2E, 0x62, 0x69, 0x6E]]))
      && ApiRootfs(cfg, req) == if cfg.useJailer then [0x2F] + rootfs else Join([vmsDir, req.vmId, rootfs])
  {
    hide Join, Render, Parse;
    FileNamesAreOrdinary();
    FilesAreTheTexts(cfg, vmsDir, req.vmId, KERNEL_FILE);
    FilesAreTheTexts(cfg, vmsDir, req.vmId, ROOTFS_FILE);
    assert KERNEL_FILE == JAILED_KERNEL_FILE + [0x2E, 0x62, 0x69, 0x6E];
    assert JAILED_KERNEL_PATH == [0x2F] + JAILED_KERNEL_FILE && JAILED_ROOTFS_PATH == [0x2F] + ROOTFS_FILE;
  }

  /** Process `rec.process` was given, before anything else and in this order, what `req` asked for. */
  predicate ConfiguredBy(cfg: Config, vmsDir: Bytes, req: CreateRequest, rec: VMRec, h: HostState) {
    var id := req.vmId;
    var vmlinux := [0x76, 0x6D, 0x6C, 0x69, 0x6E, 0x75, 0x78];
    var rootfs := [0x72, 0x6F, 0x6F, 0x74, 0x66, 0x73, 0x2E, 0x65, 0x78, 0x74, 0x34];  // rootfs.ext4
    var kernel :=
      if cfg.useJailer then [0x2F] + vmlinux
      else if cfg.useOverlay then (if req.kernelPath == [] then cfg.kernelPath else req.kernelPath)
      else Join([vmsDir, id, vmlinux + [0x2E, 0x62, 0x69, 0x6E]]);  // .bin
    var drive := if cfg.useJailer then [0x2F] + rootfs else Join([vmsDir, id, rootfs]);
    var args := "console=ttyS0 reboot=k panic=1 pci=off" + (
      if req.ipAddress == "" then ""
      else " ip=" + req.ipAddress + ":" + cfg.gatewayIP + ":" + cfg.gatewayIP + ":255.255.255.0::eth0:off");
    && rec.process.pid in h.procs
    && var calls := h.procs[rec.process.pid].calls;
    && |calls| >= 5
    && calls[0] == SetBootSource(kernel, args)
    && calls[1] == SetMachineConfig(req.vcpuCount, req.memoryMb, false)
    && calls[2] == AddDrive("rootfs", drive, true, false)
    && calls[3].AddNetworkInterface? && calls[3].ifaceId == "eth0" && calls[3].hostDevName == rec.tap
    && Mac.Decode(calls[3].guestMac) == Some([0x02, 0xFC,
         if |id| > 1 then id[0] ^ id[1] else 0, if |id| > 3 then id[2] ^ id[3] else 0,
         if |id| > 5 then id[4] ^ id[5] else 0, if |id| > 7 then id[6] ^ id[7] else 0])
    && calls[4] == InstanceStart
  }

  lemma CreatedIsConfigured(cfg: Config, vmsDir: Bytes, req: CreateRequest, rec: VMRec, a: AgentState)
    requires cfg.vmsDir == Parse(vmsDir) && Ordinary(req.vmId) && CreatedAs(cfg, req, rec, a)
    ensures ConfiguredBy(cfg, vmsDir, req, a.vms[req.vmId], a.host)
  {
    hide ApiKernel, ApiRootfs, Mac.MacText, Mac.Decode, Join, Parse, Provisions, SocketPath, TapName, ConfigCalls;
    FirstRequests(cfg, req, rec, a);
    RequestsInTexts(cfg, vmsDir, req);
    Mac.DecodeMac(req.vmId);
  }

  /**
   * Every registered VM goes back to a creation of its id that was not undone since. Its record is the
   * request's, and its instance was told the kernel and boot arguments, the sizes, the root drive, the
   * device and address of this VM, and to start.
   */
  lemma RegisteredVMsAreConfigured(cfg: Config, vmsDir: Bytes, foreign: set<Bytes>, states: seq<AgentState>, events: seq<Event>,
                                   i: nat, id: Bytes) returns (j: nat)
    requires cfg.vmsDir == Parse(vmsDir)
    requires Run(cfg, states, events) && Init(cfg, foreign, states[0]) && i < |states| && id in states[i].vms
    ensures j < i && events[j].Created? && events[j].req.vmId == id && forall k :: j < k < i ==> events[k] != Deleted(id, true)
    ensures
      var req, rec, h := events[j].req, states[i].vms[id], states[i].host;
      && rec.info == VMInfo(id, req.vcpuCount, req.memoryMb, req.ipAddress, rec.process.socketPath, req.metadata)
      && rec.process == events[j].rec.process
      && rec.tap == cfg.tapPrefix + [0x2D] + (if |id| > 8 then id[..8] else id) && rec.tap in h.taps
      && ConfiguredBy(cfg, vmsDir, req, rec, h)
  {
    hide Step, Init, Inv, CreatedAs, ConfiguredBy;
    j := RegisteredWasCreated(cfg, foreign, states, events, i, id);
    RunKeepsInv(cfg, foreign, states, events, i);
    RegisteredTapExists(cfg, foreign, states[i], id);
    OrdinaryId(cfg, foreign, states[i], id);
    FirstRequests(cfg, events[j].req, events[j].rec, states[i]);
    CreatedIsConfigured(cfg, vmsDir, events[j].req, events[j].rec, states[i]);
  }

  lemma OrdinaryId(cfg: Config, foreign: set<Bytes>, a: AgentState, id: Bytes)
    requires Inv(cfg, foreign, a) && id in a.vms
    ensures Ordinary(id)
  {
    assert RecordOk(cfg, id, a.vms[id], a.host);
  }

  lemma FirstRequests(cfg: Config, req: CreateRequest, rec: VMRec, a: AgentState)
    requires CreatedAs(cfg, req, rec, a)
    ensures var r := a.vms[req.vmId];
      && r.info == VMInfo(req.vmId, req.vcpuCount, req.memoryMb, req.ipAddress, r.process.socketPath, req.metadata)
      && r.process == rec.process && r.tap == cfg.tapPrefix + [0x2D] + (if |req.vmId| > 8 then req.vmId[..8] else req.vmId)
    ensures var calls := a.host.procs[rec.process.pid].calls;
      && |calls| >= 5 && calls[0] == SetBootSource(ApiKernel(cfg, req), BootArgs(cfg, req.ipAddress))
      && calls[1] == SetMachineConfig(req.vcpuCount, req.memoryMb, false)
      && calls[2] == AddDrive("rootfs", ApiRootfs(cfg, req), true, false)
      && calls[3] == AddNetworkInterface("eth0", rec.tap, Mac.MacText(req.vmId))
      && calls[4] == InstanceStart
  {
    hide BootArgs, ApiKernel, ApiRootfs, Mac.MacText, SocketPath, Provisions;
    var calls, first := a.host.procs[rec.process.pid].calls, ConfigCalls(cfg, req);
    assert forall k :: 0 <= k < 5 ==> calls[k] == first[k];
  }

  // ------------------------------------------------------------------- and that it can find it

  /**
   * The kernel and the root drive that the instance of `rec` was told of are there: under the jailer below
   * the jail's root directory, along with the binary; otherwise as they stand, but for a kernel that is
   * used where it is.
   */
  predicate FilesThere(cfg: Config, rec: VMRec, h: HostState) {
    && rec.process.pid in h.procs
    && var calls := h.procs[rec.process.pid].calls;
    && |calls| >= 3 && calls[0].SetBootSource? && calls[2].AddDrive?
    && var kernel, drive := Parse(calls[0].kernelImagePath), Parse(calls[2].pathOnHost);
    var id, above := rec.info.vmId, cfg.vmsDir.segs;
    if cfg.useJailer then
      var firecracker := [0x66, 0x69, 0x72, 0x65, 0x63, 0x72, 0x61, 0x63, 0x6B, 0x65, 0x72];
      var root := above + [firecracker, id, [0x72, 0x6F, 0x6F, 0x74]];
      && kernel.rooted && Path(cfg.vmsDir.rooted, root + kernel.segs) in h.nodes
      && drive.rooted && Path(cfg.vmsDir.rooted, root + drive.segs) in h.nodes
      && Path(cfg.vmsDir.rooted, root + [firecracker]) in h.nodes
    else
      drive in h.nodes && (!cfg.useOverlay ==> kernel in h.nodes)
  }

  lemma RootedName(name: Bytes)
    requires Ordinary(name)
    ensures Parse([SLASH] + name) == Path(true, [name])
  {
    ParseRender(Path(true, [name]));
  }

  lemma JailedNames()
    ensures Parse(JAILED_KERNEL_PATH) == Path(true, [JAILED_KERNEL_FILE]) && Parse(JAILED_ROOTFS_PATH) == Path(true, [ROOTFS_FILE])
  {
    hide Parse;
    FileNamesAreOrdinary();
    assert Ordinary(JAILED_KERNEL_FILE);
    RootedName(JAILED_KERNEL_FILE);
    RootedName(ROOTFS_FILE);
    assert [SLASH] + JAILED_KERNEL_FILE == JAILED_KERNEL_PATH && [SLASH] + ROOTFS_FILE == JAILED_ROOTFS_PATH;
  }

  lemma ProvisionsAreThere(cfg: Config, req: CreateRequest, rec: VMRec, a: AgentState)
    requires CreatedAs(cfg, req, rec, a)
    ensures cfg.useJailer ==>
      var root := JailDir(cfg, req.vmId).Child(ROOT_DIR);
      {root.Child(FIRECRACKER), root.Child(JAILED_KERNEL_FILE), root.Child(ROOTFS_FILE)} <= a.host.nodes
    ensures !cfg.useJailer ==>
      var dir := VMDir(cfg, req.vmId);
      dir.Child(ROOTFS_FILE) in a.host.nodes && (!cfg.useOverlay ==> dir.Child(KERNEL_FILE) in a.host.nodes)
  {
    hide SocketPath, ConfigCalls, TapName, LogPath;
    FilesAreNoSockets(cfg, req.vmId);
  }

  /** Below the root of `id`'s jail. */
  lemma InJailRoot(cfg: Config, id: Bytes, file: Bytes)
    ensures Path(cfg.vmsDir.rooted, cfg.vmsDir.segs + [FIRECRACKER, id, ROOT_DIR] + [file])
         == JailDir(cfg, id).Child(ROOT_DIR).Child(file)
  {
  }

  lemma CreatedFilesThere(cfg: Config, vmsDir: Bytes, req: CreateRequest, rec: VMRec, a: AgentState)
    requires cfg.vmsDir == Parse(vmsDir) && Ordinary(req.vmId) && CreatedAs(cfg, req, rec, a)
    ensures FilesThere(cfg, a.vms[req.vmId], a.host)
  {
    hide Parse, Render, Provisions, SocketPath, TapName, BootArgs, ConfigCalls, Join;
    FirstRequests(cfg, req, rec, a);
    ProvisionsAreThere(cfg, req, rec, a);
    FileNamesAreOrdinary();
    if cfg.useJailer {
      JailedNames();
      InJailRoot(cfg, req.vmId, FIRECRACKER);
      InJailRoot(cfg, req.vmId, JAILED_KERNEL_FILE);
      InJailRoot(cfg, req.vmId, ROOTFS_FILE);
    } else {
      FilesAreTheTexts(cfg, vmsDir, req.vmId, KERNEL_FILE);
      FilesAreTheTexts(cfg, vmsDir, req.vmId, ROOTFS_FILE);
    }
  }

  /**
   * As long as a VM is registered, and whatever happened to others, the kernel and the root drive its
   * instance was told of are where it looks for them.
   */
  lemma FilesStayThere(cfg: Config, vmsDir: Bytes, foreign: set<Bytes>, states: seq<AgentState>, events: seq<Event>,
                       i: nat, id: Bytes)
    requires cfg.vmsDir == Parse(vmsDir)
    requires Run(cfg, states, events) && Init(cfg, foreign, states[0]) && i < |states| && id in states[i].vms
    ensures FilesThere(cfg, states[i].vms[id], states[i].host)
  {
    hide Step, Init, Inv, CreatedAs, FilesThere;
    var j := RegisteredWasCreated(cfg, foreign, states, events, i, id);
    RunKeepsInv(cfg, foreign, states, events, i);
    OrdinaryId(cfg, foreign, states[i], id);
    CreatedFilesThere(cfg, vmsDir, events[j].req, events[j].rec, states[i]);
  }
}

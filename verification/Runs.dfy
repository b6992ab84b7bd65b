/** What holds over every run of the manager, whatever fails and whatever crashes. */
module Runs {
  import opened GoStrings
  import opened GoPath
  import opened Environment
  import opened Layout
  import opened Network
  import opened Storage
  import opened Process
  import opened Agent
  import Mac

  /** One completed operation and its outcome, or the passing of time. */
  datatype Event =
    | Created(req: CreateRequest, rec: VMRec)
    | NotCreated(req: CreateRequest, error: CreateError)
    | Started(id: Bytes, ok: bool)
    | StopReturned(id: Bytes, force: bool, ok: bool)
    | Deleted(id: Bytes, ok: bool)
    | Got(id: Bytes, answer: Option<(VMInfo, VMState)>)
    | Listed(list: map<Bytes, (VMInfo, VMState)>)
    | Passed

  ghost predicate Step(cfg: Config, a: AgentState, ev: Event, a': AgentState) {
    match ev
    case Created(req, rec) => OkId(cfg, req.vmId) && CreateOk(cfg, a, req, rec, a')
    case NotCreated(req, e) => OkId(cfg, req.vmId) && CreateFailed(cfg, a, req, e, a')
    case Started(id, ok) => StartStep(a, id, ok, a')
    case StopReturned(id, force, ok) => StopStep(a, id, force, ok, a')
    case Deleted(id, ok) => DeleteStep(cfg, a, id, ok, a')
    case Got(id, answer) => GetStep(a, id, answer, a')
    case Listed(list) => ListStep(a, list, a')
    case Passed => OnlyAged(a, a')
  }

  ghost predicate Run(cfg: Config, states: seq<AgentState>, events: seq<Event>) {
    && |states| == |events| + 1
    && forall i :: 0 <= i < |events| ==> Step(cfg, states[i], events[i], states[i + 1])
  }

  /** Is this event about VM `id`? */
  predicate Concerns(ev: Event, id: Bytes) {
    match ev
    case Created(req, _) => req.vmId == id
    case NotCreated(req, _) => req.vmId == id
    case StopReturned(x, _, _) => x == id
    case Deleted(x, _) => x == id
    case _ => false
  }

  lemma StepKeepsInv(cfg: Config, foreign: set<Bytes>, a: AgentState, ev: Event, a': AgentState)
    requires Inv(cfg, foreign, a) && Step(cfg, a, ev, a')
    ensures Inv(cfg, foreign, a')
  {
    hide Inv, CreateOk, CreateFailed, DeleteStep, StopStep, OnlyAged;
    match ev {
      case Created(req, rec) => CreateOkKeepsInv(cfg, foreign, a, req, rec, a');
      case NotCreated(req, e) => CreateFailedKeepsInv(cfg, foreign, a, req, e, a');
      case StopReturned(id, force, ok) => StopKeepsInv(cfg, foreign, a, id, force, ok, a');
      case Deleted(id, ok) => DeleteKeepsInv(cfg, foreign, a, id, ok, a');
      case Started(_, _) => AgingKeepsInv(cfg, foreign, a, a');
      case Got(_, _) => AgingKeepsInv(cfg, foreign, a, a');
      case Listed(_) => AgingKeepsInv(cfg, foreign, a, a');
      case Passed => AgingKeepsInv(cfg, foreign, a, a');
    }
  }

  lemma {:induction false} RunKeepsInv(cfg: Config, foreign: set<Bytes>, states: seq<AgentState>, events: seq<Event>, i: nat)
    requires Run(cfg, states, events) && Init(cfg, foreign, states[0]) && i < |states|
    ensures Inv(cfg, foreign, states[i])
  {
    hide Inv, Init, Step;
    if i == 0 {
      InitInv(cfg, foreign, states[0]);
    } else {
      RunKeepsInv(cfg, foreign, states, events, i - 1);
      StepKeepsInv(cfg, foreign, states[i - 1], events[i - 1], states[i]);
    }
  }

  // ------------------------------------------------------------------- devices and processes

  /** Conservation: the devices are those found at start-up, one per registered VM, and the stuck ones. */
  lemma TapsAreConserved(cfg: Config, foreign: set<Bytes>, states: seq<AgentState>, events: seq<Event>, i: nat)
    requires Run(cfg, states, events) && Init(cfg, foreign, states[0]) && i < |states|
    ensures var a := states[i];
      && a.host.taps == foreign + RegisteredTaps(a.vms) + a.host.stuck
      && foreign !! RegisteredTaps(a.vms) !! a.host.stuck
      && forall t :: t in a.host.stuck ==> LinkDelete(t) in a.host.commands
  {
    RunKeepsInv(cfg, foreign, states, events, i);
    assert TapsConserved(foreign, states[i]);
  }

  /** No two registered VMs share a device, so no two ids agree on their first eight bytes. */
  lemma RegisteredIdsDiffer(cfg: Config, foreign: set<Bytes>, states: seq<AgentState>, events: seq<Event>, i: nat, x: Bytes, y: Bytes)
    requires Run(cfg, states, events) && Init(cfg, foreign, states[0]) && i < |states|
    requires x in states[i].vms && y in states[i].vms && x != y
    ensures states[i].vms[x].tap != states[i].vms[y].tap
    ensures !(|x| >= 8 && |y| >= 8 && x[..8] == y[..8])
  {
    RunKeepsInv(cfg, foreign, states, events, i);
    var a := states[i];
    assert RecordOk(cfg, x, a.vms[x], a.host) && RecordOk(cfg, y, a.vms[y], a.host);
    TapNameTruncates(cfg, x, y);
  }

  /** An id whose first eight bytes are taken cannot be created, and trying deletes nobody's device. */
  lemma CollisionIsHarmless(cfg: Config, foreign: set<Bytes>, states: seq<AgentState>, events: seq<Event>, i: nat, x: Bytes)
    requires Run(cfg, states, events) && Init(cfg, foreign, states[0]) && i < |events|
    requires (events[i].Created? || events[i].NotCreated?) && x in states[i].vms
    requires x != events[i].req.vmId
    requires |x| >= 8 && |events[i].req.vmId| >= 8 && x[..8] == events[i].req.vmId[..8]
    ensures var a, ev, a' := states[i], events[i], states[i + 1];
      && ev.NotCreated?
      && (ev.error.AlreadyExists? || ev.error.StorageFailed? || ev.error == TapFailed(AddFailed))
      && a.vms[x].tap in a'.host.taps && a'.host.taps == a.host.taps && a'.host.stuck == a.host.stuck
      && Mac.MacText(x) == Mac.MacText(ev.req.vmId)
  {
    var a, ev, a' := states[i], events[i], states[i + 1];
    assert Step(cfg, a, ev, a');
    hide Step, Run, Init;
    RunKeepsInv(cfg, foreign, states, events, i);
    RegisteredTapExists(cfg, foreign, a, x);
    assert a.vms[x].tap == TapName(cfg, x) by { assert RecordOk(cfg, x, a.vms[x], a.host); }
    hide Inv;
    TapNameTruncates(cfg, x, ev.req.vmId);
    TakenName(cfg, a, ev, a');
    Mac.MacOfSuffix(x, ev.req.vmId);
  }

  lemma TakenName(cfg: Config, a: AgentState, ev: Event, a': AgentState)
    requires Step(cfg, a, ev, a') && (ev.Created? || ev.NotCreated?) && TapName(cfg, ev.req.vmId) in a.host.taps
    ensures ev.NotCreated?
    ensures ev.error.AlreadyExists? || ev.error.StorageFailed? || ev.error == TapFailed(AddFailed)
    ensures a'.host.taps == a.host.taps && a'.host.stuck == a.host.stuck
  {
  }

  /** Every live process the agent started is a registered VM's. */
  lemma NoOrphanProcesses(cfg: Config, foreign: set<Bytes>, states: seq<AgentState>, events: seq<Event>, i: nat, pid: nat)
    requires Run(cfg, states, events) && Init(cfg, foreign, states[0]) && i < |states|
    ensures Alive(states[i].host, pid) ==> exists id :: id in states[i].vms && states[i].vms[id].process.pid == pid
    // and a log handle that outlived its VM is that of a process that had exited by itself
    ensures pid in states[i].host.logs && !(exists id :: id in states[i].vms && states[i].vms[id].process.pid == pid) ==>
      pid in states[i].host.procs && states[i].host.procs[pid].status.Exited?
  {
    RunKeepsInv(cfg, foreign, states, events, i);
    var a := states[i];
    assert NoOrphans(a) && LogsOk(a.host);
    if pid in a.host.logs && a.host.procs[pid].status.Running? { assert Alive(a.host, pid); }
  }

  /** Exactly which log handles outlive a deletion: the open ones of processes that had exited by themselves. */
  lemma HandleOutlivesExactly(cfg: Config, foreign: set<Bytes>, states: seq<AgentState>, events: seq<Event>, i: nat, id: Bytes)
    requires Run(cfg, states, events) && Init(cfg, foreign, states[0]) && i < |events| && events[i] == Deleted(id, true)
    ensures var a, a' := states[i], states[i + 1];
      && id in a.vms
      && var pid := a.vms[id].process.pid;
      && pid in a'.host.procs
      && (pid in a'.host.logs <==> pid in a.host.logs && a'.host.procs[pid].status.Exited?)
      && a'.host.logs - {pid} == a.host.logs - {pid}
  {
    var a, a' := states[i], states[i + 1];
    assert Step(cfg, a, events[i], a');
    RunKeepsInv(cfg, foreign, states, events, i);
    assert RecordOk(cfg, id, a.vms[id], a.host);
    hide Run, Init, Inv, RecordOk;
  }

  /** Under the jailer the agent holds no log handle at all. */
  lemma {:induction false} JailedStartsKeepNoHandle(cfg: Config, foreign: set<Bytes>, states: seq<AgentState>, events: seq<Event>, i: nat)
    requires cfg.useJailer && Run(cfg, states, events) && Init(cfg, foreign, states[0]) && i < |states|
    ensures states[i].host.logs == {}
  {
    if i > 0 {
      JailedStartsKeepNoHandle(cfg, foreign, states, events, i - 1);
      hide Init;
      assert Step(cfg, states[i - 1], events[i - 1], states[i]);
    }
  }

  // ------------------------------------------------------------------------------ liveness of VMs

  predicate Dead(a: AgentState, pid: nat) { pid in a.host.procs && !Alive(a.host, pid) }

  lemma StepKeepsDead(cfg: Config, a: AgentState, ev: Event, a': AgentState, pid: nat)
    requires Step(cfg, a, ev, a') && Dead(a, pid)
    ensures Dead(a', pid)
  {
    if !(ev.StopReturned? && ev.ok && pid == a.vms[ev.id].process.pid)
      && !(ev.Deleted? && ev.ok && pid == a.vms[ev.id].process.pid) {
      assert AgedProc(a.host.procs[pid], a'.host.procs[pid]);
    }
  }

  lemma {:induction false} DeadStaysDead(cfg: Config, states: seq<AgentState>, events: seq<Event>, i: nat, j: nat, pid: nat)
    requires Run(cfg, states, events) && i <= j < |states| && Dead(states[i], pid)
    ensures Dead(states[j], pid)
    decreases j
  {
    hide Step, Dead;
    if i < j {
      DeadStaysDead(cfg, states, events, i, j - 1, pid);
      StepKeepsDead(cfg, states[j - 1], events[j - 1], states[j], pid);
    }
  }

  /** Stored STOPPED, a successful stop and a STOPPED report all mean a dead process, for good. */
  lemma StoppedIsForGood(cfg: Config, foreign: set<Bytes>, states: seq<AgentState>, events: seq<Event>, i: nat, j: nat, id: Bytes)
    requires Run(cfg, states, events) && Init(cfg, foreign, states[0]) && i <= j < |states|
    requires id in states[i].vms && id in states[j].vms
    requires states[i].vms[id].process.pid == states[j].vms[id].process.pid
    requires states[i].vms[id].state == STOPPED || Reported(states[i], id) == STOPPED
      || (i > 0 && events[i - 1].StopReturned? && events[i - 1].id == id && events[i - 1].ok)
    ensures Reported(states[j], id) == STOPPED
  {
    RunKeepsInv(cfg, foreign, states, events, i);
    var a := states[i];
    assert RecordOk(cfg, id, a.vms[id], a.host);
    if i > 0 { assert Step(cfg, states[i - 1], events[i - 1], states[i]); }
    assert Dead(a, a.vms[id].process.pid);
    DeadStaysDead(cfg, states, events, i, j, a.vms[id].process.pid);
  }

  /** With nothing in between, StartVM succeeds exactly when GetVM would say RUNNING. */
  lemma StartAgreesWithGet(a: AgentState, id: Bytes, ok: bool, b: AgentState, answer: Option<(VMInfo, VMState)>)
    requires StartStep(a, id, ok, b) && GetStep(b, id, answer, b)
    ensures ok <==> answer.Some? && answer.value.1 == RUNNING
  {
  }

  // -------------------------------------------------------------------------- non-interference

  lemma SparedProcess(cfg: Config, foreign: set<Bytes>, a: AgentState, ev: Event, a': AgentState, x: Bytes)
    requires Inv(cfg, foreign, a) && Step(cfg, a, ev, a') && x in a.vms && !Concerns(ev, x)
    ensures a.vms[x].process.pid in a'.host.procs
    ensures AgedProc(a.host.procs[a.vms[x].process.pid], a'.host.procs[a.vms[x].process.pid])
  {
    assert RecordOk(cfg, x, a.vms[x], a.host);
    match ev {
      case Deleted(id, ok) => if ok { assert a.vms[id].process.pid != a.vms[x].process.pid; }
      case StopReturned(id, _, ok) => if ok { assert a.vms[id].process.pid != a.vms[x].process.pid; }
      case _ =>
    }
  }

  lemma SparedTrees(cfg: Config, foreign: set<Bytes>, a: AgentState, ev: Event, a': AgentState, x: Bytes)
    requires Inv(cfg, foreign, a) && Step(cfg, a, ev, a') && OkId(cfg, x) && !Concerns(ev, x)
    ensures forall p :: InTrees(cfg, x, p) ==> (p in a.host.nodes <==> p in a'.host.nodes)
  {
    match ev {
      case Created(req, _) => ConfinedSparesOthers(cfg, req.vmId, x, a.host.nodes, a'.host.nodes);
      case NotCreated(req, _) => ConfinedSparesOthers(cfg, req.vmId, x, a.host.nodes, a'.host.nodes);
      case Deleted(id, ok) =>
        if ok {
          assert RecordOk(cfg, id, a.vms[id], a.host);
          ShrunkIsConfined(cfg, id, a.host.nodes, a'.host.nodes);
          ConfinedSparesOthers(cfg, id, x, a.host.nodes, a'.host.nodes);
        }
      case StopReturned(id, _, ok) =>
        if ok {
          assert RecordOk(cfg, id, a.vms[id], a.host);
          SocketRemovalConfined(cfg, id, a.vms[id].process, a.host.nodes, a'.host.nodes);
          ConfinedSparesOthers(cfg, id, x, a.host.nodes, a'.host.nodes);
        }
      case _ =>
    }
  }

  lemma SparedRecord(cfg: Config, a: AgentState, ev: Event, a': AgentState, x: Bytes)
    requires Step(cfg, a, ev, a') && x in a.vms && !Concerns(ev, x)
    ensures x in a'.vms && a'.vms[x] == a.vms[x]
  {
  }

  lemma RegisteredTapExists(cfg: Config, foreign: set<Bytes>, a: AgentState, x: Bytes)
    requires Inv(cfg, foreign, a) && x in a.vms
    ensures a.vms[x].tap in a.host.taps
  {
    assert a.vms[x].tap in RegisteredTaps(a.vms);
  }

  /** What is `x`'s is as it was, but for its process having exited by itself, if it did. */
  ghost predicate Spared(cfg: Config, x: Bytes, a: AgentState, a': AgentState) {
    && x in a.vms && x in a'.vms && a'.vms[x] == a.vms[x]
    && a.vms[x].tap in a'.host.taps
    && (forall p :: InTrees(cfg, x, p) ==> (p in a.host.nodes <==> p in a'.host.nodes))
    && a.vms[x].process.pid in a.host.procs && a.vms[x].process.pid in a'.host.procs
    && AgedProc(a.host.procs[a.vms[x].process.pid], a'.host.procs[a.vms[x].process.pid])
  }

  lemma StepSpares(cfg: Config, foreign: set<Bytes>, a: AgentState, ev: Event, a': AgentState, x: Bytes)
    requires Inv(cfg, foreign, a) && Step(cfg, a, ev, a') && x in a.vms && !Concerns(ev, x)
    ensures Spared(cfg, x, a, a')
  {
    assert RecordOk(cfg, x, a.vms[x], a.host);
    hide Inv, Step;
    SparedRecord(cfg, a, ev, a', x);
    StepKeepsInv(cfg, foreign, a, ev, a');
    RegisteredTapExists(cfg, foreign, a', x);
    SparedTrees(cfg, foreign, a, ev, a', x);
    SparedProcess(cfg, foreign, a, ev, a', x);
  }

  lemma SparedAtFirst(cfg: Config, foreign: set<Bytes>, a: AgentState, x: Bytes)
    requires Inv(cfg, foreign, a) && x in a.vms
    ensures Spared(cfg, x, a, a)
  {
    RegisteredTapExists(cfg, foreign, a, x);
    assert RecordOk(cfg, x, a.vms[x], a.host);
  }

  /**
   * No operations on other VMs, however many and successful or not, harm a VM: its record, device,
   * directories and every file in them stay, and its process is not signalled.
   */
  lemma {:induction false} OthersAreSpared(cfg: Config, foreign: set<Bytes>, states: seq<AgentState>, events: seq<Event>, i: nat, j: nat, x: Bytes)
    requires Run(cfg, states, events) && Init(cfg, foreign, states[0]) && i <= j < |states|
    requires x in states[i].vms && forall k :: i <= k < j ==> !Concerns(events[k], x)
    ensures Spared(cfg, x, states[i], states[j])
    decreases j
  {
    hide Init, Inv, Step, InTrees, Concerns;
    if i == j {
      RunKeepsInv(cfg, foreign, states, events, i);
      SparedAtFirst(cfg, foreign, states[i], x);
    } else {
      OthersAreSpared(cfg, foreign, states, events, i, j - 1, x);
      RunKeepsInv(cfg, foreign, states, events, j - 1);
      StepSpares(cfg, foreign, states[j - 1], events[j - 1], states[j], x);
    }
  }

  /**
   * Why `firecracker` must not be an id under the jailer: removing a VM's directory spares another
   * VM's jail exactly when the id is a different one.
   */
  lemma JailsSparedExactly(cfg: Config, a: Bytes, b: Bytes, h: HostState, h': HostState)
    requires a != b && JailDir(cfg, b) in h.nodes
    requires TreeRemoved(VMDir(cfg, a), h, h') && VMDir(cfg, a) !in h'.residue
    ensures JailDir(cfg, b) in h'.nodes <==> a != FIRECRACKER
  {
    TreesOverlap(cfg, a, b);
  }

  // ------------------------------------------------------- creation as a transaction, and its inverse

  /** No device of `id` is newly stuck, and neither of its trees is on record as not removable. */
  predicate CleanedUp(cfg: Config, id: Bytes, h: HostState, h': HostState) {
    && h'.stuck <= h.stuck
    && VMDir(cfg, id) !in h'.residue && (cfg.useJailer ==> JailDir(cfg, id) !in h'.residue)
  }

  /** Nothing of `id` is left on the host, and nothing else is different but new parent directories. */
  ghost predicate NothingLeft(cfg: Config, id: Bytes, h: HostState, h': HostState) {
    && h'.taps == h.taps && h'.stuck == h.stuck
    && Aged(h.procs, h'.procs) && NothingLeftRunning(h.procs, h'.procs)
    && !Occupied(h'.nodes, VMDir(cfg, id)) && (cfg.useJailer ==> !Occupied(h'.nodes, JailDir(cfg, id)))
    && Confined(cfg, id, h.nodes, h'.nodes)
  }

  /** A creation that fails past the storage stage, and can clean up, leaves nothing behind. */
  lemma FailedCreateLeavesNothing(cfg: Config, foreign: set<Bytes>, states: seq<AgentState>, events: seq<Event>, i: nat)
    requires Run(cfg, states, events) && Init(cfg, foreign, states[0]) && i < |events|
    requires events[i].NotCreated? && !events[i].error.AlreadyExists? && !events[i].error.StorageFailed?
    requires CleanedUp(cfg, events[i].req.vmId, states[i].host, states[i + 1].host)
    ensures states[i + 1].vms == states[i].vms
    ensures NothingLeft(cfg, events[i].req.vmId, states[i].host, states[i + 1].host)
  {
    var a, id, a' := states[i], events[i].req.vmId, states[i + 1];
    assert Step(cfg, a, events[i], a');
    hide Run, Init, Inv;
    RunKeepsInv(cfg, foreign, states, events, i);
    StuckDevicesExist(cfg, foreign, a);
  }

  /**
   * The exact exception, on a host with nothing of `id` on it: a failed creation that could clean up
   * leaves a VM directory exactly when preparing storage failed after making the directory.
   */
  lemma LeftBehindExactly(cfg: Config, foreign: set<Bytes>, states: seq<AgentState>, events: seq<Event>, i: nat)
    requires Run(cfg, states, events) && Init(cfg, foreign, states[0]) && i < |events|
    requires events[i].NotCreated? && events[i].req.vmId !in states[i].vms
    requires !Occupied(states[i].host.nodes, VMDir(cfg, events[i].req.vmId))
    requires CleanedUp(cfg, events[i].req.vmId, states[i].host, states[i + 1].host)
    ensures var id, e, a' := events[i].req.vmId, events[i].error, states[i + 1];
      && (Occupied(a'.host.nodes, VMDir(cfg, id)) <==> e.StorageFailed? && e.prepare != MkdirFailed)
      && (Occupied(a'.host.nodes, VMDir(cfg, id)) ==> !cfg.useJailer && id in a'.abandoned)
  {
    var a, id, e, a' := states[i], events[i].req.vmId, events[i].error, states[i + 1];
    assert Step(cfg, a, events[i], a');
    hide Run, Init;
    if e == StorageFailed(MkdirFailed) {
      SameTreesSameOccupancy(cfg, id, a.host, a'.host);
    } else if e.StorageFailed? {
      assert Under(VMDir(cfg, id), VMDir(cfg, id));
    }
  }

  /** A VM was deleted, every step succeeding: whatever had happened to it, nothing of it is left. */
  lemma DeletedLeavesNothing(cfg: Config, foreign: set<Bytes>, states: seq<AgentState>, events: seq<Event>, i: nat, id: Bytes)
    requires Run(cfg, states, events) && Init(cfg, foreign, states[0]) && i < |events|
    requires events[i] == Deleted(id, true) && CleanedUp(cfg, id, states[i].host, states[i + 1].host)
    ensures var a, a' := states[i], states[i + 1];
      && id in a.vms && a'.vms == a.vms - {id}
      && TapName(cfg, id) !in a'.host.taps && !Alive(a'.host, a.vms[id].process.pid)
      && !Occupied(a'.host.nodes, VMDir(cfg, id)) && (cfg.useJailer ==> !Occupied(a'.host.nodes, JailDir(cfg, id)))
  {
    var a, a' := states[i], states[i + 1];
    assert Step(cfg, a, events[i], a');
    hide Run, Init;
    RunKeepsInv(cfg, foreign, states, events, i);
    RunKeepsInv(cfg, foreign, states, events, i + 1);
    assert a.vms[id].tap == TapName(cfg, id) && a.vms[id].tap !in a.host.stuck by {
      assert RecordOk(cfg, id, a.vms[id], a.host);
      assert a.vms[id].tap in RegisteredTaps(a.vms);
    }
    hide Inv, Occupied;
    RegisteredTapExists(cfg, foreign, a, id);
  }

  /** The log handle of a process that exited by itself; the jailed start keeps none. */
  function HandleLeft(cfg: Config, pid: nat, h: HostState): set<nat> {
    if !cfg.useJailer && pid in h.procs && h.procs[pid].status.Exited? then {pid} else {}
  }

  /** `c` is `a` again, up to what time did, and `pid` was torn down. */
  ghost predicate RoundTrip(cfg: Config, id: Bytes, pid: nat, a: AgentState, c: AgentState) {
    && c.vms == a.vms && NothingLeft(cfg, id, a.host, c.host)
    && c.host.commands == a.host.commands + Acquiring(cfg, id, pid) + Teardown(cfg, id, pid)
    && c.host.logs == a.host.logs + HandleLeft(cfg, pid, c.host)
    && forall r :: !IsRoot(cfg, id, r) ==> (r in c.host.residue <==> r in a.host.residue)
  }

  lemma StepsRoundTrip(cfg: Config, foreign: set<Bytes>, a: AgentState, req: CreateRequest, rec: VMRec, b: AgentState, c: AgentState)
    requires Inv(cfg, foreign, a) && CreateOk(cfg, a, req, rec, b) && DeleteStep(cfg, b, req.vmId, true, c)
    requires CleanedUp(cfg, req.vmId, a.host, c.host)
    ensures RoundTrip(cfg, req.vmId, rec.process.pid, a, c)
  {
    hide Inv, Confined, Shrunk, ConfigCalls, SocketPath, Occupied, InTrees, Provisions, Acquiring, Teardown;
    var id, pid := req.vmId, rec.process.pid;
    StuckDevicesExist(cfg, foreign, a);
    assert pid !in a.host.logs by { HandlesHaveProcesses(cfg, foreign, a); }
    RoundTripProcesses(pid, a.host, b.host, c.host);
    RoundTripTrees(cfg, id, a.host.nodes, b.host.nodes, c.host.nodes);
    assert c.vms == a.vms;
  }

  /** Creating and then deleting a VM, with every teardown step succeeding, is a round trip on the host. */
  lemma CreateDeleteRoundTrip(cfg: Config, foreign: set<Bytes>, states: seq<AgentState>, events: seq<Event>, i: nat,
                              req: CreateRequest, rec: VMRec)
    requires Run(cfg, states, events) && Init(cfg, foreign, states[0]) && i + 1 < |events|
    requires events[i] == Created(req, rec) && events[i + 1] == Deleted(req.vmId, true)
    requires CleanedUp(cfg, req.vmId, states[i].host, states[i + 2].host)
    ensures RoundTrip(cfg, req.vmId, rec.process.pid, states[i], states[i + 2])
  {
    hide Init, Inv, CreateOk, DeleteStep, CleanedUp, RoundTrip, OkId;
    assert Step(cfg, states[i], events[i], states[i + 1]) && Step(cfg, states[i + 1], events[i + 1], states[i + 2]);
    RunKeepsInv(cfg, foreign, states, events, i);
    StepsRoundTrip(cfg, foreign, states[i], req, rec, states[i + 1], states[i + 2]);
  }

  lemma HandlesHaveProcesses(cfg: Config, foreign: set<Bytes>, a: AgentState)
    requires Inv(cfg, foreign, a)
    ensures a.host.logs <= a.host.procs.Keys
  {
  }

  lemma StuckDevicesExist(cfg: Config, foreign: set<Bytes>, a: AgentState)
    requires Inv(cfg, foreign, a)
    ensures a.host.stuck <= a.host.taps
  {
  }

  lemma RoundTripProcesses(pid: nat, h: HostState, m: HostState, k: HostState)
    requires pid !in h.procs && m.procs.Keys == h.procs.Keys + {pid} && Aged(h.procs, m.procs)
    requires k.procs.Keys == m.procs.Keys && AgedBut(m.procs, k.procs, pid) && !Alive(k, pid)
    ensures Aged(h.procs, k.procs) && NothingLeftRunning(h.procs, k.procs)
  {
    forall p | p in h.procs ensures AgedProc(h.procs[p], k.procs[p]) {
      assert AgedProc(h.procs[p], m.procs[p]) && AgedProc(m.procs[p], k.procs[p]);
    }
  }

  lemma RoundTripTrees(cfg: Config, id: Bytes, n: set<Path>, m: set<Path>, k: set<Path>)
    requires Confined(cfg, id, n, m) && Shrunk(cfg, id, m, k)
    ensures Confined(cfg, id, n, k)
  {
    ShrunkIsConfined(cfg, id, m, k);
  }

  /** All that creating and deleting a VM with process `pid` issues. */
  function CreatedAndDeleted(cfg: Config, id: Bytes, pid: nat): seq<Cmd> {
    Acquiring(cfg, id, pid) + Teardown(cfg, id, pid)
  }

  /**
   * A creation that fails at its last stage issues the same commands as one that succeeds and the
   * deletion of what it created, in any other run and but for the number of the process.
   */
  lemma RollbackIsTeardown(cfg: Config, states: seq<AgentState>, events: seq<Event>, i: nat,
                           others: seq<AgentState>, happened: seq<Event>, j: nat, rec: VMRec)
    requires Run(cfg, states, events) && i < |events| && events[i].NotCreated? && events[i].error.ApiFailed?
    requires Run(cfg, others, happened) && j + 1 < |happened| && happened[j] == Created(events[i].req, rec)
    requires happened[j + 1] == Deleted(events[i].req.vmId, true)
    ensures var id := events[i].req.vmId;
      && others[j + 2].host.commands == others[j].host.commands + CreatedAndDeleted(cfg, id, rec.process.pid)
      && exists pid :: (
        && pid !in states[i].host.procs && pid in states[i + 1].host.procs && !Alive(states[i + 1].host, pid)
        && states[i + 1].host.commands == states[i].host.commands + CreatedAndDeleted(cfg, id, pid))
  {
    var id := events[i].req.vmId;
    assert Step(cfg, states[i], events[i], states[i + 1]);
    assert Step(cfg, others[j], happened[j], others[j + 1]) && Step(cfg, others[j + 1], happened[j + 1], others[j + 2]);
    hide Run, CreateFailed, CreateOk, DeleteStep, Acquiring, Teardown, OkId;
    FailureIssued(cfg, states[i], events[i].req, events[i].error, states[i + 1]);
    StepsIssued(cfg, others[j], events[i].req, rec, others[j + 1], others[j + 2]);
  }

  lemma StepsIssued(cfg: Config, a: AgentState, req: CreateRequest, rec: VMRec, b: AgentState, c: AgentState)
    requires CreateOk(cfg, a, req, rec, b) && DeleteStep(cfg, b, req.vmId, true, c)
    ensures c.host.commands == a.host.commands + CreatedAndDeleted(cfg, req.vmId, rec.process.pid)
  {
    hide Acquiring, Teardown;
  }

  lemma FailureIssued(cfg: Config, a: AgentState, req: CreateRequest, e: CreateError, a': AgentState)
    requires CreateFailed(cfg, a, req, e, a') && e.ApiFailed?
    ensures exists pid :: (
      && pid !in a.host.procs && pid in a'.host.procs && !Alive(a'.host, pid)
      && a'.host.commands == a.host.commands + CreatedAndDeleted(cfg, req.vmId, pid))
  {
    var pid: nat, c :|
      && IssuedBefore(cfg, req.vmId, e, pid, c)
      && a'.host.commands == a.host.commands + c + RollingBack(cfg, req.vmId, e, pid)
      && pid !in a.host.procs && pid in a'.host.procs;
    hide Acquiring, Teardown;
    assert a'.host.commands == a.host.commands + CreatedAndDeleted(cfg, req.vmId, pid);
  }
}

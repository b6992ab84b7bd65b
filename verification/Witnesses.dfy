/** Runs in which the agent leaves something behind, and for which configurations there are any. */
module Witnesses {
  import opened GoStrings
  import opened GoPath
  import opened Environment
  import opened Layout
  import opened Network
  import opened Storage
  import opened Process
  import opened Agent
  import opened Runs
  import opened Grammar
  import opened GrammarExact

  // --------------------------------------------------------------- the directory of a failed creation

  /** In some run a failed creation of `id`, on a host with nothing of `id`, leaves its VM directory. */
  ghost predicate LeavesDirectory(cfg: Config, id: Bytes) {
    exists foreign: set<Bytes>, states: seq<AgentState>, events: seq<Event>, i: nat ::
      Run(cfg, states, events) && Init(cfg, foreign, states[0]) && LeavesDirectoryAt(cfg, id, states, events, i)
  }

  ghost predicate LeavesDirectoryAt(cfg: Config, id: Bytes, states: seq<AgentState>, events: seq<Event>, i: nat) {
    && i < |events| < |states| && events[i].NotCreated? && events[i].req.vmId == id && id !in states[i].vms
    && !Occupied(states[i].host.nodes, VMDir(cfg, id))
    && CleanedUp(cfg, id, states[i].host, states[i + 1].host)
    && Occupied(states[i + 1].host.nodes, VMDir(cfg, id))
  }

  /** The commands of a storage preparation whose last step fails. */
  function RootfsCommands(cfg: Config, id: Bytes): seq<Cmd> {
    if cfg.useOverlay then DirectCommands(cfg, id) else [MkdirAll(VMDir(cfg, id))]
  }

  function DirectoryOnly(cfg: Config, id: Bytes): AgentState {
    AgentState(map[], {id}, HostState({}, {}, map[], {VMDir(cfg, id)}, {}, {}, RootfsCommands(cfg, id)))
  }

  lemma RootfsCanFail(cfg: Config, id: Bytes)
    requires !cfg.useJailer
    ensures CreateFailed(cfg, AgentAt(cfg, id, 0, Absent, []), Request(id), StorageFailed(RootfsFailed), DirectoryOnly(cfg, id))
  {
    var a, a', c := AgentAt(cfg, id, 0, Absent, []), DirectoryOnly(cfg, id), RootfsCommands(cfg, id);
    assert Under(VMDir(cfg, id), VMDir(cfg, id));
    assert IssuedBefore(cfg, id, StorageFailed(RootfsFailed), 0, c);
    assert a'.host.commands == a.host.commands + c + RollingBack(cfg, id, StorageFailed(RootfsFailed), 0);
    assert RollbackSequence(cfg, id, StorageFailed(RootfsFailed), a.host, a'.host);
  }

  /** A failed creation can leave the VM directory exactly when there is no jailer. */
  lemma LeavesDirectoryExactly(cfg: Config, id: Bytes)
    requires OkId(cfg, id)
    ensures LeavesDirectory(cfg, id) <==> !cfg.useJailer
  {
    if LeavesDirectory(cfg, id) {
      var foreign: set<Bytes>, states: seq<AgentState>, events: seq<Event>, i: nat :|
        Run(cfg, states, events) && Init(cfg, foreign, states[0]) && LeavesDirectoryAt(cfg, id, states, events, i);
      hide Init, Step;
      LeftBehindExactly(cfg, foreign, states, events, i);
    }
    if !cfg.useJailer {
      var a, a' := AgentAt(cfg, id, 0, Absent, []), DirectoryOnly(cfg, id);
      var states, events := [a, a'], [NotCreated(Request(id), StorageFailed(RootfsFailed))];
      StartsAbsent(cfg, id);
      RootfsCanFail(cfg, id);
      hide Init, CreateFailed;
      assert Under(VMDir(cfg, id), VMDir(cfg, id));
      assert Run(cfg, states, events);
      assert LeavesDirectoryAt(cfg, id, states, events, 0);
    }
  }

  // ----------------------------------------------------------------- the log handle of a dead process

  /** In some run the log handle of `id`'s process outlives the deletion of `id`. */
  ghost predicate LeavesHandle(cfg: Config, id: Bytes) {
    exists foreign: set<Bytes>, states: seq<AgentState>, events: seq<Event>, i: nat ::
      Run(cfg, states, events) && Init(cfg, foreign, states[0]) && LeavesHandleAt(id, states, events, i)
  }

  predicate LeavesHandleAt(id: Bytes, states: seq<AgentState>, events: seq<Event>, i: nat) {
    && i < |events| < |states| && events[i] == Deleted(id, true) && id in states[i].vms
    && states[i].vms[id].process.pid in states[i + 1].host.logs && id !in states[i + 1].vms
  }

  /** The VM as it was created, but its process has exited. */
  function AfterExit(cfg: Config, id: Bytes): AgentState {
    var a := AgentAt(cfg, id, 1, Up, Acquiring(cfg, id, 0));
    a.(host := a.host.(procs := map[0 := Proc(Exited, ConfigCalls(cfg, Request(id)))]))
  }

  /** After its deletion. */
  function HandleOnly(cfg: Config, id: Bytes): AgentState {
    AgentState(map[], {}, AfterExit(cfg, id).host.(
      taps := {}, nodes := {}, commands := Acquiring(cfg, id, 0) + Teardown(cfg, id, 0)))
  }

  lemma CanExit(cfg: Config, id: Bytes)
    ensures OnlyAged(AgentAt(cfg, id, 1, Up, Acquiring(cfg, id, 0)), AfterExit(cfg, id))
  {
    assert AgentAt(cfg, id, 1, Up, Acquiring(cfg, id, 0)).host.procs[0] == ProcAt(cfg, id, 1, Up, 0);
  }

  lemma CanDeleteExited(cfg: Config, id: Bytes)
    requires !cfg.useJailer
    ensures DeleteStep(cfg, AfterExit(cfg, id), id, true, HandleOnly(cfg, id))
    ensures id in AfterExit(cfg, id).vms && AfterExit(cfg, id).vms[id].process.pid == 0
    ensures 0 in HandleOnly(cfg, id).host.logs && HandleOnly(cfg, id).vms == map[]
  {
    hide Provisions, InTrees, SocketPath, TapName, Acquiring;
    ProvisionsInside(cfg, id);
  }

  lemma CanCreateFirst(cfg: Config, id: Bytes)
    ensures CreateOk(cfg, AgentAt(cfg, id, 0, Absent, []), Request(id), Record(cfg, id, 0, RUNNING),
      AgentAt(cfg, id, 1, Up, Acquiring(cfg, id, 0)))
  {
    hide CreateOk, AgentAt, Acquiring;
    CanCreate(cfg, id, 0, []);
    assert [] + Acquiring(cfg, id, 0) == Acquiring(cfg, id, 0);
  }

  /** Created, exited by itself, deleted: the handle is still open. */
  lemma HandleStays(cfg: Config, id: Bytes) returns (states: seq<AgentState>, events: seq<Event>)
    requires OkId(cfg, id) && !cfg.useJailer
    ensures Run(cfg, states, events) && Init(cfg, {}, states[0]) && LeavesHandleAt(id, states, events, 2)
  {
    hide Init, CreateOk, OnlyAged, DeleteStep, AgentAt, OkId, Acquiring, Teardown;
    states := [AgentAt(cfg, id, 0, Absent, []), AgentAt(cfg, id, 1, Up, Acquiring(cfg, id, 0)), AfterExit(cfg, id), HandleOnly(cfg, id)];
    events := [Created(Request(id), Record(cfg, id, 0, RUNNING)), Passed, Deleted(id, true)];
    StartsAbsent(cfg, id);
    CanCreateFirst(cfg, id);
    CanExit(cfg, id);
    CanDeleteExited(cfg, id);
    hide AfterExit, HandleOnly;
  }

  /** A log handle can outlive its VM exactly when there is no jailer. */
  lemma LeavesHandleExactly(cfg: Config, id: Bytes)
    requires OkId(cfg, id)
    ensures LeavesHandle(cfg, id) <==> !cfg.useJailer
  {
    hide Init, Step, OkId;
    if LeavesHandle(cfg, id) && cfg.useJailer {
      var foreign: set<Bytes>, states: seq<AgentState>, events: seq<Event>, i: nat :|
        Run(cfg, states, events) && Init(cfg, foreign, states[0]) && LeavesHandleAt(id, states, events, i);
      JailedStartsKeepNoHandle(cfg, foreign, states, events, i + 1);
    }
    if !cfg.useJailer {
      var states, events := HandleStays(cfg, id);
    }
  }
}

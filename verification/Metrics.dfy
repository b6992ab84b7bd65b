/** What the two VM metrics count over a run, and exactly when the gauge is right. */
module Metrics {
  import opened GoStrings
  import opened Environment
  import opened Layout
  import opened Agent
  import opened Runs
  import opened AgentServer
  import opened ServerRuns
  import opened EventStreams
  import opened Grammar
  import opened GrammarExact

  /** Successful deletes. */
  function Deletes(events: seq<Event>): nat {
    if events == [] then 0
    else
      var last := events[|events| - 1];
      Deletes(events[..|events| - 1]) + if last.Deleted? && last.ok then 1 else 0
  }

  /** Successful stops. */
  function Stops(events: seq<Event>): nat {
    if events == [] then 0
    else
      var last := events[|events| - 1];
      Stops(events[..|events| - 1]) + if last.StopReturned? && last.ok then 1 else 0
  }

  /** The registered VMs that are running. */
  function RunningVMs(a: AgentState): set<Bytes> {
    set id | id in a.vms && Reported(a, id) == RUNNING
  }

  lemma RegistrySize(vms: map<Bytes, VMRec>, ev: Event)
    requires Fits(vms, ev)
    ensures |RegistryAfter(vms, ev)| == |vms| + (if ev.Created? then 1 else 0) - (if ev.Deleted? && ev.ok then 1 else 0)
  {
    var vms' := RegistryAfter(vms, ev);
    match ev {
      case Created(req, rec) => assert vms'.Keys == vms.Keys + {req.vmId};
      case StopReturned(id, _, ok) => assert vms'.Keys == vms.Keys;
      case Deleted(id, ok) => if ok { assert vms'.Keys == vms.Keys - {id}; }
      case _ =>
    }
    assert |vms'| == |vms'.Keys| && |vms| == |vms.Keys|;
  }

  lemma {:induction false} MetricsAreAccounted(cfg: Config, foreign: set<Bytes>, states: seq<ServerState>, events: seq<Event>, i: nat)
    requires ServerRun(cfg, states, events) && ServerInit(cfg, foreign, states[0]) && i < |states|
    ensures states[i].vmsCreated == |states[i].agent.vms| + Deletes(events[..i])
    ensures states[i].vmsRunning == |states[i].agent.vms| - Stops(events[..i])
  {
    hide Init, Step, RegistryAfter, Fits;
    if i == 0 {
      InitEmpty(cfg, foreign, states[0].agent);
    } else {
      MetricsAreAccounted(cfg, foreign, states, events, i - 1);
      assert HandlerStep(cfg, states[i - 1], events[i - 1], states[i]);
      RegistryMoves(cfg, states[i - 1].agent, events[i - 1], states[i].agent);
      RegistrySize(states[i - 1].agent.vms, events[i - 1]);
      assert events[..i][..i - 1] == events[..i - 1];
    }
  }

  // --------------------------------------------------------------- the gauge and the processes

  /** The VMs that died in this step by themselves, or that were created and found dead. */
  function Crashed(a: AgentState, ev: Event, a': AgentState): set<Bytes> {
    set id |
      && id in a'.vms && Reported(a', id) == STOPPED
      && (id in a.vms ==> Reported(a, id) == RUNNING)
      && !(ev.StopReturned? && ev.ok && ev.id == id)
  }

  /** A successful stop or delete of a VM that was not running. */
  predicate Wasted(a: AgentState, ev: Event) {
    (ev.StopReturned? || ev.Deleted?) && ev.ok && ev.id in a.vms && Reported(a, ev.id) == STOPPED
  }

  function Crashes(states: seq<ServerState>, events: seq<Event>, i: nat): nat
    requires i <= |events| < |states|
  {
    if i == 0 then 0
    else Crashes(states, events, i - 1) + |Crashed(states[i - 1].agent, events[i - 1], states[i].agent)|
  }

  function WastedOps(states: seq<ServerState>, events: seq<Event>, i: nat): nat
    requires i <= |events| < |states|
  {
    if i == 0 then 0
    else WastedOps(states, events, i - 1) + if Wasted(states[i - 1].agent, events[i - 1]) then 1 else 0
  }

  /** The VM this step adds to those that should be running. */
  function Added(ev: Event): set<Bytes> { if ev.Created? then {ev.req.vmId} else {} }

  /** The running VM this step ends. */
  function Ended(a: AgentState, ev: Event): set<Bytes> {
    if (ev.StopReturned? || ev.Deleted?) && ev.ok && ev.id in RunningVMs(a) then {ev.id} else {}
  }

  lemma StopEnds(cfg: Config, a: AgentState, ev: Event, a': AgentState)
    requires Step(cfg, a, ev, a') && ev.StopReturned? && ev.ok
    ensures ev.id in a'.vms && Reported(a', ev.id) == STOPPED
  {
  }

  lemma RunningMoves(cfg: Config, foreign: set<Bytes>, a: AgentState, ev: Event, a': AgentState)
    requires Inv(cfg, foreign, a) && Step(cfg, a, ev, a')
    ensures RunningVMs(a') + Crashed(a, ev, a') == RunningVMs(a) + Added(ev) - Ended(a, ev)
    ensures RunningVMs(a') !! Crashed(a, ev, a') && RunningVMs(a) !! Added(ev) && Ended(a, ev) <= RunningVMs(a)
  {
    hide Inv, Step, Reported;
    RegistryMoves(cfg, a, ev, a');
    if ev.StopReturned? && ev.ok { StopEnds(cfg, a, ev, a'); }
    forall id | id in a.vms && Reported(a, id) == STOPPED
      ensures id in a'.vms ==> Reported(a', id) == STOPPED
    {
      NoneRevives(cfg, foreign, a, ev, a', id);
    }
    forall id ensures id in RunningVMs(a') + Crashed(a, ev, a') <==> id in RunningVMs(a) + Added(ev) - Ended(a, ev) {
    }
  }

  lemma DriftStep(cfg: Config, foreign: set<Bytes>, a: AgentState, ev: Event, a': AgentState)
    requires Inv(cfg, foreign, a) && Step(cfg, a, ev, a')
    ensures |RunningVMs(a')| + |Crashed(a, ev, a')| == |RunningVMs(a)| + GaugeChange(ev) + if Wasted(a, ev) then 1 else 0
  {
    RunningMoves(cfg, foreign, a, ev, a');
    RegistryMoves(cfg, a, ev, a');
    hide Inv, Step, Reported;
    var all := RunningVMs(a) + Added(ev);
    assert |all| == |RunningVMs(a)| + |Added(ev)|;
    assert |all - Ended(a, ev)| == |all| - |Ended(a, ev)|;
    assert |RunningVMs(a') + Crashed(a, ev, a')| == |RunningVMs(a')| + |Crashed(a, ev, a')|;
  }

  /**
   * The gauge is off by the crashes less the stops and deletes that found a dead VM; so it shows the
   * number of VMs running exactly when these are equally many.
   */
  lemma {:induction false} GaugeDrift(cfg: Config, foreign: set<Bytes>, states: seq<ServerState>, events: seq<Event>, i: nat)
    requires ServerRun(cfg, states, events) && ServerInit(cfg, foreign, states[0]) && i < |states|
    ensures states[i].vmsRunning - |RunningVMs(states[i].agent)| == Crashes(states, events, i) - WastedOps(states, events, i)
    ensures states[i].vmsRunning == |RunningVMs(states[i].agent)| <==> Crashes(states, events, i) == WastedOps(states, events, i)
  {
    hide Init, Step, Inv, RunningVMs, Crashed, Wasted;
    if i == 0 {
      NoneRunning(cfg, foreign, states[0].agent);
    } else {
      GaugeDrift(cfg, foreign, states, events, i - 1);
      ServerRunKeepsInv(cfg, foreign, states, events, i - 1);
      assert HandlerStep(cfg, states[i - 1], events[i - 1], states[i]);
      DriftStep(cfg, foreign, states[i - 1].agent, events[i - 1], states[i].agent);
    }
  }

  lemma NoneRunning(cfg: Config, foreign: set<Bytes>, a: AgentState)
    requires Init(cfg, foreign, a)
    ensures RunningVMs(a) == {}
  {
  }

  lemma {:induction false} WasteIsCounted(states: seq<ServerState>, events: seq<Event>, i: nat)
    requires i <= |events| < |states|
    ensures WastedOps(states, events, i) == 0 <==> forall k :: 0 <= k < i ==> !Wasted(states[k].agent, events[k])
    ensures Crashes(states, events, i) == 0 <==>
      forall k :: 0 <= k < i ==> Crashed(states[k].agent, events[k], states[k + 1].agent) == {}
  {
    hide Wasted, Crashed;
    if i > 0 {
      WasteIsCounted(states, events, i - 1);
    }
  }

  /** With no crash, the gauge is right exactly when every VM stopped or deleted was running when it was. */
  lemma RightWithoutCrashesExactly(cfg: Config, foreign: set<Bytes>, states: seq<ServerState>, events: seq<Event>, i: nat)
    requires ServerRun(cfg, states, events) && ServerInit(cfg, foreign, states[0]) && i < |states|
    requires forall k :: 0 <= k < i ==> Crashed(states[k].agent, events[k], states[k + 1].agent) == {}
    ensures states[i].vmsRunning == |RunningVMs(states[i].agent)| <==>
      forall k :: 0 <= k < i ==> !Wasted(states[k].agent, events[k])
  {
    GaugeDrift(cfg, foreign, states, events, i);
    WasteIsCounted(states, events, i);
  }

  /** Creating, stopping and deleting a VM, each with success, leaves the gauge one too low. */
  lemma UsualLifeDrifts(cfg: Config, s0: ServerState, s1: ServerState, s2: ServerState, s3: ServerState,
                        req: CreateRequest, rec: VMRec, force: bool)
    requires HandlerStep(cfg, s0, Created(req, rec), s1)
    requires HandlerStep(cfg, s1, StopReturned(req.vmId, force, true), s2)
    requires HandlerStep(cfg, s2, Deleted(req.vmId, true), s3)
    ensures s3.agent.vms == s0.agent.vms && s3.vmsRunning == s0.vmsRunning - 1
  {
    hide Step;
    RegistryMoves(cfg, s0.agent, Created(req, rec), s1.agent);
    RegistryMoves(cfg, s1.agent, StopReturned(req.vmId, force, true), s2.agent);
    RegistryMoves(cfg, s2.agent, Deleted(req.vmId, true), s3.agent);
  }

  /** Whole lives of a VM: created, stopped, deleted, `k` times over. */
  function Lives(k: nat): seq<EventType> {
    if k == 0 then [] else Lives(k - 1) + [EvCreated] + [EvStopped] + [EvDeleted]
  }

  lemma WeightsGrow(w: seq<EventType>, t: EventType)
    ensures Weights(w + [t]) == Weights(w) + Weight(t)
  {
    assert (w + [t])[..|w|] == w;
  }

  lemma LifeAdded(k: nat)
    requires k > 0
    ensures Lives(k) == Lives(k - 1) + [EvCreated] + [EvStopped] + [EvDeleted]
  {
  }

  lemma {:induction false} LivesReach(k: nat)
    ensures Reach(Lives(k)) == Some(Absent) && Weights(Lives(k)) + k == 0
  {
    if k > 0 {
      LivesReach(k - 1);
      var w := Lives(k - 1);
      hide Reach, Weights, Lives;
      assert Lives(k) == w + [EvCreated] + [EvStopped] + [EvDeleted] by { LifeAdded(k); }
      ReachGrows(w, EvCreated);
      ReachGrows(w + [EvCreated], EvStopped);
      ReachGrows(w + [EvCreated] + [EvStopped], EvDeleted);
      WeightsGrow(w, EvCreated);
      WeightsGrow(w + [EvCreated], EvStopped);
      WeightsGrow(w + [EvCreated] + [EvStopped], EvDeleted);
    }
  }

  /** It does happen, without bound: for every `k` some run ends with no VM and the gauge at -k. */
  lemma GaugeFallsWithoutBound(cfg: Config, id: Bytes, k: nat) returns (states: seq<ServerState>, events: seq<Event>)
    requires OkId(cfg, id)
    ensures ServerRun(cfg, states, events) && ServerInit(cfg, {}, states[0])
    ensures states[|events|].agent.vms == map[] && RunningVMs(states[|events|].agent) == {}
    ensures states[|events|].vmsRunning + k == 0
  {
    LivesReach(k);
    hide HandlerStep, ServerInit, Reach, Weights, OkId;
    var n, commands;
    states, events, n, commands := Realised(cfg, id, Lives(k));
    assert states[|events|].agent.vms == map[];
  }
}

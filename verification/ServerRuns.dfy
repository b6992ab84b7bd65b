/** Whole runs of the handlers: what the events say about the VMs, and what the metrics do. */
module ServerRuns {
  import opened GoStrings
  import opened Environment
  import opened Layout
  import opened Agent
  import opened Runs
  import opened EventStreams
  import opened Grammar
  import opened AgentServer

  ghost predicate ServerInit(cfg: Config, foreign: set<Bytes>, s: ServerState) {
    Init(cfg, foreign, s.agent) && s.log == [] && s.vmsCreated == 0 && s.vmsRunning == 0
  }

  ghost predicate ServerRun(cfg: Config, states: seq<ServerState>, events: seq<Event>) {
    && |states| == |events| + 1
    && forall i :: 0 <= i < |events| ==> HandlerStep(cfg, states[i], events[i], states[i + 1])
  }

  lemma {:induction false} ServerRunKeepsInv(cfg: Config, foreign: set<Bytes>, states: seq<ServerState>, events: seq<Event>, i: nat)
    requires ServerRun(cfg, states, events) && ServerInit(cfg, foreign, states[0]) && i < |states|
    ensures Inv(cfg, foreign, states[i].agent)
  {
    hide Inv, Init, Step;
    if i == 0 {
      InitInv(cfg, foreign, states[0].agent);
    } else {
      ServerRunKeepsInv(cfg, foreign, states, events, i - 1);
      assert HandlerStep(cfg, states[i - 1], events[i - 1], states[i]);
      StepKeepsInv(cfg, foreign, states[i - 1].agent, events[i - 1], states[i].agent);
    }
  }

  /** The registry after one operation. */
  function RegistryAfter(vms: map<Bytes, VMRec>, ev: Event): map<Bytes, VMRec> {
    match ev
    case Created(req, rec) => vms[req.vmId := rec]
    case StopReturned(id, _, ok) => if ok && id in vms then vms[id := vms[id].(state := STOPPED)] else vms
    case Deleted(id, ok) => if ok then vms - {id} else vms
    case _ => vms
  }

  /** What an operation's success says about the registry it found. */
  predicate Fits(vms: map<Bytes, VMRec>, ev: Event) {
    match ev
    case Created(req, rec) => req.vmId !in vms && rec.state.RUNNING?
    case Started(id, ok) => ok ==> id in vms
    case StopReturned(id, _, ok) => ok <==> id in vms
    case Deleted(id, ok) => ok <==> id in vms
    case _ => true
  }

  lemma RegistryMoves(cfg: Config, a: AgentState, ev: Event, a': AgentState)
    requires Step(cfg, a, ev, a')
    ensures a'.vms == RegistryAfter(a.vms, ev) && Fits(a.vms, ev)
  {
  }

  /** A registered VM's process only ever goes from running to dead. */
  lemma NoneRevives(cfg: Config, foreign: set<Bytes>, a: AgentState, ev: Event, a': AgentState, id: Bytes)
    requires Inv(cfg, foreign, a) && Step(cfg, a, ev, a') && id in a.vms && Reported(a, id) == STOPPED
    ensures id in a'.vms ==> Reported(a', id) == STOPPED
  {
    hide Inv, Step, RegistryAfter, Fits;
    RegisteredProcess(cfg, foreign, a, id);
    StepKeepsDead(cfg, a, ev, a', a.vms[id].process.pid);
    RegistryMoves(cfg, a, ev, a');
    if id in a'.vms { SameProcess(a.vms, ev, id); }
  }

  lemma SameProcess(vms: map<Bytes, VMRec>, ev: Event, id: Bytes)
    requires Fits(vms, ev) && id in vms && id in RegistryAfter(vms, ev)
    ensures RegistryAfter(vms, ev)[id].process == vms[id].process
  {
  }

  lemma RegisteredProcess(cfg: Config, foreign: set<Bytes>, a: AgentState, id: Bytes)
    requires Inv(cfg, foreign, a) && id in a.vms
    ensures a.vms[id].process.pid in a.host.procs
  {
    assert RecordOk(cfg, id, a.vms[id], a.host);
  }

  lemma StoredStoppedIsDead(cfg: Config, foreign: set<Bytes>, a: AgentState, id: Bytes)
    requires Inv(cfg, foreign, a) && id in a.vms && a.vms[id].state == STOPPED
    ensures Reported(a, id) == STOPPED
  {
    assert RecordOk(cfg, id, a.vms[id], a.host);
  }

  // ------------------------------------------------------------------------------- the events

  /** The events broadcast about `id`, errors aside. */
  function Word(log: seq<VMEvent>, id: Bytes): seq<EventType> {
    if log == [] then []
    else
      var last := log[|log| - 1];
      Word(log[..|log| - 1], id) + if last.vmId == id && last.eventType != EvError then [last.eventType] else []
  }

  /** Where a VM stands by its record. */
  function Recorded(a: AgentState, id: Bytes): Phase {
    if id !in a.vms then Absent else if a.vms[id].state.RUNNING? then Up else Halted
  }

  lemma WordGrows(log: seq<VMEvent>, e: VMEvent, id: Bytes)
    ensures Word(log + [e], id) ==
      if e.vmId == id && e.eventType != EvError then Word(log, id) + [e.eventType] else Word(log, id)
  {
    assert Word(log, id) + [] == Word(log, id);
    assert (log + [e])[..|log|] == log;
  }

  lemma ReachGrows(w: seq<EventType>, t: EventType)
    requires Reach(w).Some?
    ensures Reach(w + [t]) == Delta(Reach(w).value, t)
  {
    assert (w + [t])[..|w|] == w;
  }

  lemma StartedIsRunning(cfg: Config, a: AgentState, ev: Event, a': AgentState)
    requires Step(cfg, a, ev, a') && ev.Started? && ev.ok
    ensures ev.id in a'.vms && Reported(a', ev.id) == RUNNING
  {
  }

  /** The record of `id` moves as the automaton does on what is broadcast. */
  lemma RecordedMoves(cfg: Config, foreign: set<Bytes>, a: AgentState, ev: Event, a': AgentState, id: Bytes)
    requires Inv(cfg, foreign, a) && Step(cfg, a, ev, a')
    ensures
      if Announced(ev) != [] && Announced(ev)[0].vmId == id && Announced(ev)[0].eventType != EvError
      then Delta(Recorded(a, id), Announced(ev)[0].eventType) == Some(Recorded(a', id))
      else Recorded(a', id) == Recorded(a, id)
  {
    hide Inv, Step, Reported;
    RegistryMoves(cfg, a, ev, a');
    if ev.Started? && ev.ok && ev.id == id {
      StartedIsRunning(cfg, a, ev, a');
      if a.vms[id].state == STOPPED {
        StoredStoppedIsDead(cfg, foreign, a, id);
        NoneRevives(cfg, foreign, a, ev, a', id);
      }
    }
  }

  /** The events so far determine which VMs are registered, and which of those were stopped. */
  lemma {:induction false} EventsTellTheRegistry(cfg: Config, foreign: set<Bytes>, states: seq<ServerState>, events: seq<Event>, i: nat, id: Bytes)
    requires ServerRun(cfg, states, events) && ServerInit(cfg, foreign, states[0]) && i < |states|
    ensures Reach(Word(states[i].log, id)) == Some(Recorded(states[i].agent, id))
  {
    hide Inv, Init, HandlerStep;
    if i == 0 {
      assert states[0].agent.vms == map[] by { InitEmpty(cfg, foreign, states[0].agent); }
    } else {
      EventsTellTheRegistry(cfg, foreign, states, events, i - 1, id);
      ServerRunKeepsInv(cfg, foreign, states, events, i - 1);
      var s, ev, s' := states[i - 1], events[i - 1], states[i];
      assert HandlerStep(cfg, s, ev, s');
      OneMoreEvent(cfg, foreign, s, ev, s', id);
    }
  }

  lemma OneMoreEvent(cfg: Config, foreign: set<Bytes>, s: ServerState, ev: Event, s': ServerState, id: Bytes)
    requires Inv(cfg, foreign, s.agent) && HandlerStep(cfg, s, ev, s')
    requires Reach(Word(s.log, id)) == Some(Recorded(s.agent, id))
    ensures Reach(Word(s'.log, id)) == Some(Recorded(s'.agent, id))
  {
    hide Inv, Step, Recorded, Delta, Reach;
    RecordedMoves(cfg, foreign, s.agent, ev, s'.agent, id);
    if Announced(ev) == [] {
      assert s'.log == s.log;
    } else {
      var e := Announced(ev)[0];
      assert Announced(ev) == [e];
      WordGrows(s.log, e, id);
      ReachGrows(Word(s.log, id), e.eventType);
    }
  }

  lemma InitEmpty(cfg: Config, foreign: set<Bytes>, a: AgentState)
    requires Init(cfg, foreign, a)
    ensures a.vms == map[]
  {
  }

  /** Whatever fails or crashes, the events of one VM begin a word of (CREATED STARTED* STOPPED* DELETED)*. */
  lemma EventsFollowTheGrammar(cfg: Config, foreign: set<Bytes>, states: seq<ServerState>, events: seq<Event>, i: nat, id: Bytes)
    requires ServerRun(cfg, states, events) && ServerInit(cfg, foreign, states[0]) && i < |states|
    ensures Conforms(Word(states[i].log, id))
    ensures Cycles(Word(states[i].log, id)) <==> id !in states[i].agent.vms
  {
    EventsTellTheRegistry(cfg, foreign, states, events, i, id);
    var w := Word(states[i].log, id);
    ReachExactlyConforming(w);
    if Cycles(w) { CyclesReachAbsent(w); }
    if Reach(w) == Some(Absent) {
      var k, m := ReachShape(w);
      assert w[..k] == w;
    }
  }
}

/** The event grammar is exact: every word it allows is what some run of the handlers broadcasts. */
module GrammarExact {
  import opened GoStrings
  import opened GoPath
  import opened Environment
  import opened Layout
  import opened Network
  import opened Storage
  import opened Process
  import opened Agent
  import opened Runs
  import opened EventStreams
  import opened Grammar
  import opened AgentServer
  import opened ServerRuns
  import Mac

  function Request(id: Bytes): CreateRequest {
    CreateRequest(id, 1, 128, "", [], [], map[])
  }

  function Record(cfg: Config, id: Bytes, pid: nat, state: VMState): VMRec {
    VMRec(InfoOf(Request(id), SocketPath(cfg, id)), state, VMProcess(pid, SocketPath(cfg, id)), TapName(cfg, id))
  }

  /** The process of creation `k` when `n` were made. */
  function ProcAt(cfg: Config, id: Bytes, n: nat, p: Phase, k: nat): Proc {
    Proc(if p.Up? && k == n - 1 then Running else Signalled, ConfigCalls(cfg, Request(id)))
  }

  /** After `n` creations of `id`, with the last one's VM in phase `p`. */
  function HostAt(cfg: Config, id: Bytes, n: nat, p: Phase, commands: seq<Cmd>): HostState
    requires p.Absent? || n > 0
  {
    HostState(
      if p.Absent? then {} else {TapName(cfg, id)},
      {},
      map k: nat | k < n :: ProcAt(cfg, id, n, p, k),
      if p.Absent? then {} else Provisions(cfg, id),
      {},
      if p.Up? && !cfg.useJailer then var pid: nat := n - 1; {pid} else {},
      commands)
  }

  function AgentAt(cfg: Config, id: Bytes, n: nat, p: Phase, commands: seq<Cmd>): AgentState
    requires p.Absent? || n > 0
  {
    AgentState(
      if p.Absent? then map[] else map[id := Record(cfg, id, n - 1, if p.Up? then RUNNING else STOPPED)],
      {},
      HostAt(cfg, id, n, p, commands))
  }

  lemma StartsAbsent(cfg: Config, id: Bytes)
    ensures Init(cfg, {}, AgentAt(cfg, id, 0, Absent, []))
  {
  }

  lemma CreateProcesses(cfg: Config, id: Bytes, n: nat, commands: seq<Cmd>, commands': seq<Cmd>)
    ensures var h, h' := HostAt(cfg, id, n, Absent, commands), HostAt(cfg, id, n + 1, Up, commands');
      && n !in h.procs && h'.procs.Keys == h.procs.Keys + {n} && Aged(h.procs, h'.procs)
      && h'.procs[n] == Proc(Running, ConfigCalls(cfg, Request(id)))
  {
    var h, h' := HostAt(cfg, id, n, Absent, commands), HostAt(cfg, id, n + 1, Up, commands');
    forall k | k in h.procs ensures AgedProc(h.procs[k], h'.procs[k]) {
      assert h.procs[k] == ProcAt(cfg, id, n, Absent, k) && h'.procs[k] == ProcAt(cfg, id, n + 1, Up, k);
    }
    assert h'.procs[n] == ProcAt(cfg, id, n + 1, Up, n);
  }

  lemma CanCreate(cfg: Config, id: Bytes, n: nat, commands: seq<Cmd>)
    ensures CreateOk(cfg, AgentAt(cfg, id, n, Absent, commands), Request(id), Record(cfg, id, n, RUNNING),
      AgentAt(cfg, id, n + 1, Up, commands + Acquiring(cfg, id, n)))
  {
    hide TapName, SocketPath, BootArgs, ApiKernel, ApiRootfs, Aged, InTrees, IsRoot, ProcAt, VMDir, JailDir, Provisions, Acquiring;
    SocketInside(cfg, id);
    ProvisionsInside(cfg, id);
    CreateProcesses(cfg, id, n, commands, commands + Acquiring(cfg, id, n));
  }

  lemma CanStart(cfg: Config, id: Bytes, n: nat, commands: seq<Cmd>)
    requires n > 0
    ensures var a := AgentAt(cfg, id, n, Up, commands); StartStep(a, id, true, a)
  {
  }

  lemma CanStop(cfg: Config, id: Bytes, n: nat, p: Phase, commands: seq<Cmd>)
    requires n > 0 && !p.Absent?
    ensures StopStep(AgentAt(cfg, id, n, p, commands), id, true, true,
      AgentAt(cfg, id, n, Halted, commands + [Kill(n - 1)]))
  {
  }

  lemma CanDelete(cfg: Config, id: Bytes, n: nat, p: Phase, commands: seq<Cmd>)
    requires n > 0 && !p.Absent?
    ensures DeleteStep(cfg, AgentAt(cfg, id, n, p, commands), id, true,
      AgentAt(cfg, id, n, Absent, commands + Teardown(cfg, id, n - 1)))
  {
    hide Provisions, InTrees, SocketPath, TapName;
    ProvisionsInside(cfg, id);
  }

  /** What an event's handler adds to the gauge of running VMs. */
  function Weight(t: EventType): int {
    match t
    case EvCreated => 1
    case EvStopped => -1
    case EvDeleted => -1
    case _ => 0
  }

  function Weights(w: seq<EventType>): int {
    if w == [] then 0 else Weights(w[..|w| - 1]) + Weight(w[|w| - 1])
  }

  /** Whatever the automaton allows next can be made to happen. */
  lemma CanDo(cfg: Config, id: Bytes, n: nat, p: Phase, commands: seq<Cmd>, t: EventType)
      returns (ev: Event, n': nat, commands': seq<Cmd>)
    requires OkId(cfg, id) && (p.Absent? || n > 0) && Delta(p, t).Some?
    ensures Announced(ev) == [VMEvent(id, t)] && t != EvError && GaugeChange(ev) == Weight(t)
    ensures Delta(p, t).value.Absent? || n' > 0
    ensures Step(cfg, AgentAt(cfg, id, n, p, commands), ev, AgentAt(cfg, id, n', Delta(p, t).value, commands'))
  {
    hide CreateOk, StartStep, StopStep, DeleteStep, OkId, AgentAt, Teardown, Acquiring;
    n', commands' := n, commands;
    match t {
      case EvCreated =>
        ev, n', commands' := Created(Request(id), Record(cfg, id, n, RUNNING)), n + 1, commands + Acquiring(cfg, id, n);
        CanCreate(cfg, id, n, commands);
      case EvStarted =>
        ev := Started(id, true);
        CanStart(cfg, id, n, commands);
      case EvStopped =>
        ev, commands' := StopReturned(id, true, true), commands + [Kill(n - 1)];
        CanStop(cfg, id, n, p, commands);
      case EvDeleted =>
        ev, commands' := Deleted(id, true), commands + Teardown(cfg, id, n - 1);
        CanDelete(cfg, id, n, p, commands);
      case EvError =>
    }
  }

  function After(s: ServerState, ev: Event, a: AgentState): ServerState {
    ServerState(a, s.log + Announced(ev), s.vmsCreated + (if ev.Created? then 1 else 0), s.vmsRunning + GaugeChange(ev))
  }

  lemma AfterIsStep(cfg: Config, s: ServerState, ev: Event, a: AgentState)
    requires Step(cfg, s.agent, ev, a)
    ensures HandlerStep(cfg, s, ev, After(s, ev, a))
  {
    hide Step;
  }

  lemma RunExtends(cfg: Config, states: seq<ServerState>, events: seq<Event>, ev: Event, s: ServerState)
    requires ServerRun(cfg, states, events) && HandlerStep(cfg, states[|events|], ev, s)
    ensures ServerRun(cfg, states + [s], events + [ev])
  {
    hide HandlerStep;
  }

  lemma {:induction false} Realised(cfg: Config, id: Bytes, w: seq<EventType>)
      returns (states: seq<ServerState>, events: seq<Event>, n: nat, commands: seq<Cmd>)
    requires OkId(cfg, id) && Reach(w).Some?
    ensures ServerRun(cfg, states, events) && ServerInit(cfg, {}, states[0])
    ensures Reach(w).value.Absent? || n > 0
    ensures states[|events|].agent == AgentAt(cfg, id, n, Reach(w).value, commands)
    ensures Word(states[|events|].log, id) == w && states[|events|].vmsRunning == Weights(w)
  {
    hide Step, Init, OkId, AgentAt, Delta, HandlerStep, Word, Weight;
    if w == [] {
      states, events, n, commands := [ServerState(AgentAt(cfg, id, 0, Absent, []), [], 0, 0)], [], 0, [];
      StartsAbsent(cfg, id);
      assert Word([], id) == [] by { NothingSaid(id); }
    } else {
      var init, t := w[..|w| - 1], w[|w| - 1];
      var before, past, k, issued := Realised(cfg, id, init);
      var s := before[|past|];
      var ev;
      ev, n, commands := CanDo(cfg, id, k, Reach(init).value, issued, t);
      var s' := After(s, ev, AgentAt(cfg, id, n, Delta(Reach(init).value, t).value, commands));
      AfterIsStep(cfg, s, ev, s'.agent);
      RunExtends(cfg, before, past, ev, s');
      states, events := before + [s'], past + [ev];
      WordGrows(s.log, VMEvent(id, t), id);
      assert w == init + [t];
    }
  }

  lemma NothingSaid(id: Bytes)
    ensures Word([], id) == []
  {
  }

  /** Some run from a fresh start broadcasts exactly `w` about `id`. */
  ghost predicate Happens(cfg: Config, id: Bytes, w: seq<EventType>) {
    exists foreign: set<Bytes>, states: seq<ServerState>, events: seq<Event> ::
      ServerRun(cfg, states, events) && ServerInit(cfg, foreign, states[0]) && Word(states[|events|].log, id) == w
  }

  /** What can be broadcast about one VM is exactly what the grammar allows. */
  lemma GrammarIsExact(cfg: Config, id: Bytes, w: seq<EventType>)
    requires OkId(cfg, id)
    ensures Happens(cfg, id, w) <==> Conforms(w)
  {
    hide HandlerStep, ServerInit, Conforms, OkId;
    if Happens(cfg, id, w) {
      var foreign: set<Bytes>, states: seq<ServerState>, events: seq<Event> :|
        ServerRun(cfg, states, events) && ServerInit(cfg, foreign, states[0]) && Word(states[|events|].log, id) == w;
      EventsFollowTheGrammar(cfg, foreign, states, events, |events|, id);
    }
    if Conforms(w) {
      ReachExactlyConforming(w);
      var states, events, _, _ := Realised(cfg, id, w);
    }
  }
}

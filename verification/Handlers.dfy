/** The lifecycle handlers: what they refuse, whom they tell, and what they count. */
module AgentServer {
  import opened GoStrings
  import opened GoPath
  import opened Environment
  import opened Layout
  import opened Agent
  import Storage
  import opened Runs
  import opened EventStreams
  import opened FirecrackerManager

  /** The manager's state, every event ever broadcast, and the two metrics. */
  datatype ServerState = ServerState(agent: AgentState, log: seq<VMEvent>, vmsCreated: nat, vmsRunning: int)

  /** A refused request, an error answer, or success. */
  datatype Reply<+T> = InvalidArgument | Failed | Done(value: T)

  /** What is broadcast about one operation. A failed delete is only logged. */
  function Announced(ev: Event): seq<VMEvent> {
    match ev
    case Created(req, _) => [VMEvent(req.vmId, EvCreated)]
    case NotCreated(req, _) => [VMEvent(req.vmId, EvError)]
    case Started(id, ok) => [VMEvent(id, if ok then EvStarted else EvError)]
    case StopReturned(id, _, ok) => [VMEvent(id, if ok then EvStopped else EvError)]
    case Deleted(id, ok) => if ok then [VMEvent(id, EvDeleted)] else []
    case _ => []
  }

  /** What one operation adds to the gauge of running VMs. */
  function GaugeChange(ev: Event): int {
    if ev.Created? then 1 else if (ev.StopReturned? || ev.Deleted?) && ev.ok then -1 else 0
  }

  ghost predicate HandlerStep(cfg: Config, s: ServerState, ev: Event, s': ServerState) {
    && Step(cfg, s.agent, ev, s'.agent)
    && s'.log == s.log + Announced(ev)
    && s'.vmsCreated == s.vmsCreated + (if ev.Created? then 1 else 0)
    && s'.vmsRunning == s.vmsRunning + GaugeChange(ev)
  }

  /** Each subscriber's queue after some broadcasts. */
  function OfferAll(q: seq<VMEvent>, events: seq<VMEvent>): seq<VMEvent> {
    if events == [] then q else Offer(OfferAll(q, events[..|events| - 1]), events[|events| - 1])
  }

  function QueuesAfter(queues: map<string, seq<VMEvent>>, events: seq<VMEvent>): map<string, seq<VMEvent>> {
    map x | x in queues :: OfferAll(queues[x], events)
  }

  lemma AfterOne(queues: map<string, seq<VMEvent>>, e: VMEvent)
    ensures QueuesAfter(queues, [e]) == map x | x in queues :: Offer(queues[x], e)
  {
    forall q: seq<VMEvent> ensures OfferAll(q, [e]) == Offer(q, e) {
      assert OfferAll(q, [e]) == Offer(OfferAll(q, [e][..0]), e);
    }
  }

  lemma CreatedStep(cfg: Config, s: ServerState, req: CreateRequest, vm: VM, a: AgentState)
    requires OkId(cfg, req.vmId) && CreateOk(cfg, s.agent, req, vm.Rec(), a)
    ensures vm.Rec().info == vm.info
    ensures Announced(Created(req, vm.Rec())) == [VMEvent(req.vmId, EvCreated)]
    ensures HandlerStep(cfg, s, Created(req, vm.Rec()),
      ServerState(a, s.log + [VMEvent(req.vmId, EvCreated)], s.vmsCreated + 1, s.vmsRunning + 1))
  {
    hide CreateOk, OkId;
  }

  lemma NotCreatedStep(cfg: Config, s: ServerState, req: CreateRequest, error: CreateError, a: AgentState)
    requires OkId(cfg, req.vmId) && CreateFailed(cfg, s.agent, req, error, a)
    ensures Announced(NotCreated(req, error)) == [VMEvent(req.vmId, EvError)]
    ensures HandlerStep(cfg, s, NotCreated(req, error), s.(agent := a, log := s.log + [VMEvent(req.vmId, EvError)]))
  {
    hide CreateFailed, OkId;
  }

  lemma AfterNone(queues: map<string, seq<VMEvent>>)
    ensures QueuesAfter(queues, []) == queues
  {
  }

  class Server {
    const manager: Manager
    const eventStream: EventStream
    var vmsCreated: nat
    var vmsRunning: int
    ghost var log: seq<VMEvent>

    ghost function State(): ServerState
      reads this, manager, manager.host, manager.vms.Values
    {
      ServerState(manager.State(), log, vmsCreated, vmsRunning)
    }

    ghost predicate Valid()
      reads this, manager, manager.host, manager.vms.Values, eventStream, eventStream.subscribers.Values
    {
      manager.Valid() && eventStream.Valid()
    }

    constructor (manager: Manager)
      requires manager.Valid()
      ensures Valid() && this.manager == manager && fresh(eventStream)
      ensures State() == ServerState(manager.State(), [], 0, 0) && eventStream.Queues() == map[]
    {
      this.manager := manager;
      eventStream := new EventStream();
      vmsCreated, vmsRunning, log := 0, 0, [];
    }

    /** The answer to a request goes back to what the host had reported since `clock` and `trace`. */
    ghost predicate Answered(req: CreateRequest, ev: Event, clock: nat, trace: seq<Act>)
      requires (ev.Created? || ev.NotCreated?) && trace <= manager.host.trace
      reads manager, manager.host
    {
      CreationReported(manager.cfg, req, if ev.Created? then None else Some(ev.error),
                       manager.host.clock - clock, Since(trace, manager.host.trace))
    }

    method BroadcastEvent(e: VMEvent)
      requires Valid()
      modifies this`log, eventStream.subscribers.Values
      ensures Valid() && eventStream.subscribers == old(eventStream.subscribers)
      ensures State() == old(State()).(log := old(log) + [e])
      ensures eventStream.Queues() == QueuesAfter(old(eventStream.Queues()), [e])
    {
      hide Manager.Valid, Manager.State, EventStream.Valid;
      AfterOne(eventStream.Queues(), e);
      eventStream.Broadcast(e);
      log := log + [e];
    }

    /** Moves the two metrics. */
    method Count(created: nat, running: int)
      requires Valid()
      modifies this`vmsCreated, this`vmsRunning
      ensures Valid() && eventStream.Queues() == old(eventStream.Queues())
      ensures State() == old(State()).(vmsCreated := old(vmsCreated) + created, vmsRunning := old(vmsRunning) + running)
    {
      hide Manager.Valid, Manager.State, EventStream.Valid, EventStream.Queues;
      vmsCreated, vmsRunning := vmsCreated + created, vmsRunning + running;
    }

    method CreateVM(req: CreateRequest) returns (r: Reply<Path>, ghost ev: Event)
      requires Valid() && (req.vmId != [] ==> OkId(manager.cfg, req.vmId))
      modifies this, manager, manager.host, eventStream.subscribers.Values
      ensures Valid() && eventStream.subscribers == old(eventStream.subscribers)
      ensures r.InvalidArgument? <==> req.vmId == [] || req.vcpuCount < 1 || req.vcpuCount > 32 || req.memoryMb < 128
      ensures r.InvalidArgument? ==> State() == old(State()) && eventStream.Queues() == old(eventStream.Queues())
      ensures !r.InvalidArgument? ==>
        && (ev.Created? || ev.NotCreated?) && ev.req == req && (r.Done? <==> ev.Created?)
        && HandlerStep(manager.cfg, old(State()), ev, State())
        && eventStream.Queues() == QueuesAfter(old(eventStream.Queues()), Announced(ev))
        && Announced(ev) == [VMEvent(req.vmId, if r.Done? then EvCreated else EvError)]
        && vmsCreated == old(vmsCreated) + (if r.Done? then 1 else 0)
        && vmsRunning == old(vmsRunning) + (if r.Done? then 1 else 0)
        && old(manager.host.trace) <= manager.host.trace && Answered(req, ev, old(manager.host.clock), old(manager.host.trace))
      ensures r.Done? ==> r.value == ev.rec.info.socketPath
    {
      hide Answered, Valid, State, EventStream.Queues, QueuesAfter, HandlerStep, Announced;
      if req.vmId == [] {
        return InvalidArgument, Passed;
      }
      if req.vcpuCount < 1 || req.vcpuCount > 32 {
        return InvalidArgument, Passed;
      }
      if req.memoryMb < 128 {
        return InvalidArgument, Passed;
      }
      r, ev := CreateAndTell(req);
    }

    /** What CreateVM does about a request it accepts. */
    method CreateAndTell(req: CreateRequest) returns (r: Reply<Path>, ghost ev: Event)
      requires Valid() && OkId(manager.cfg, req.vmId)
      modifies this, manager, manager.host, eventStream.subscribers.Values
      ensures Valid() && eventStream.subscribers == old(eventStream.subscribers)
      ensures !r.InvalidArgument? && (ev.Created? || ev.NotCreated?) && ev.req == req && (r.Done? <==> ev.Created?)
      ensures HandlerStep(manager.cfg, old(State()), ev, State())
      ensures eventStream.Queues() == QueuesAfter(old(eventStream.Queues()), Announced(ev))
      ensures Announced(ev) == [VMEvent(req.vmId, if r.Done? then EvCreated else EvError)]
      ensures vmsCreated == old(vmsCreated) + (if r.Done? then 1 else 0)
      ensures vmsRunning == old(vmsRunning) + (if r.Done? then 1 else 0)
      ensures old(manager.host.trace) <= manager.host.trace && Answered(req, ev, old(manager.host.clock), old(manager.host.trace))
      ensures r.Done? ==> r.value == ev.rec.info.socketPath
    {
      hide CreateOk, CreateFailed, ConfigCalls, Storage.SocketPath, OkId, VM.Rec, CreationReported, Since;
      hide Manager.Valid, Manager.State, EventStream.Valid, EventStream.Queues, QueuesAfter, HandlerStep, Announced;
      ghost var s := State();
      ghost var queues := eventStream.Queues();
      var result := manager.CreateVM(req);
      assert Valid() && eventStream.Queues() == queues && State() == s.(agent := manager.State());
      ghost var a := manager.State();
      assert result.Err? ==> Answered(req, NotCreated(req, result.error), old(manager.host.clock), old(manager.host.trace));
      if result.Err? {
        ev := NotCreated(req, result.error);
        NotCreatedStep(manager.cfg, s, req, result.error, a);
        hide Valid, State;
        BroadcastEvent(VMEvent(req.vmId, EvError));
        return Failed, ev;
      }
      ev := Created(req, manager.vms[req.vmId].Rec());
      CreatedStep(manager.cfg, s, req, manager.vms[req.vmId], a);
      hide Valid, State;
      BroadcastEvent(VMEvent(req.vmId, EvCreated));
      Count(1, 1);
      r := Done(result.value.socketPath);
    }

    method StartVM(id: Bytes) returns (r: Reply<()>)
      requires Valid()
      modifies this, manager.host, eventStream.subscribers.Values
      ensures Valid() && eventStream.subscribers == old(eventStream.subscribers)
      ensures r.InvalidArgument? <==> id == []
      ensures r.InvalidArgument? ==> State() == old(State()) && eventStream.Queues() == old(eventStream.Queues())
      ensures !r.InvalidArgument? ==>
        && HandlerStep(manager.cfg, old(State()), Started(id, r.Done?), State())
        && eventStream.Queues() == QueuesAfter(old(eventStream.Queues()), [VMEvent(id, if r.Done? then EvStarted else EvError)])
        && log == old(log) + [VMEvent(id, if r.Done? then EvStarted else EvError)]
        && vmsCreated == old(vmsCreated) && vmsRunning == old(vmsRunning)
    {
      hide Manager.Valid, Manager.State, EventStream.Valid, EventStream.Queues, QueuesAfter, StartStep;
      if id == [] {
        return InvalidArgument;
      }
      ghost var s := State();
      ghost var queues := eventStream.Queues();
      var ok := manager.StartVM(id);
      assert Valid() && eventStream.Queues() == queues && State() == s.(agent := manager.State());
      hide Valid, State;
      if !ok {
        BroadcastEvent(VMEvent(id, EvError));
        return Failed;
      }
      BroadcastEvent(VMEvent(id, EvStarted));
      r := Done(());
    }

    method StopVM(id: Bytes, force: bool) returns (r: Reply<()>)
      requires Valid()
      modifies this, manager.host, manager.vms.Values, eventStream.subscribers.Values
      ensures Valid() && eventStream.subscribers == old(eventStream.subscribers)
      ensures r.InvalidArgument? <==> id == []
      ensures r.InvalidArgument? ==> State() == old(State()) && eventStream.Queues() == old(eventStream.Queues())
      ensures !r.InvalidArgument? ==>
        && HandlerStep(manager.cfg, old(State()), StopReturned(id, force, r.Done?), State())
        && eventStream.Queues() == QueuesAfter(old(eventStream.Queues()), [VMEvent(id, if r.Done? then EvStopped else EvError)])
        && log == old(log) + [VMEvent(id, if r.Done? then EvStopped else EvError)]
        && vmsCreated == old(vmsCreated) && vmsRunning == old(vmsRunning) - (if r.Done? then 1 else 0)
      ensures old(manager.host.trace) <= manager.host.trace
      ensures r.Done? ==>
        && id in manager.vms
        && Graceful(force, manager.vms[id].process.pid, Since(old(manager.host.trace), manager.host.trace))
    {
      hide Manager.Valid, Manager.State, EventStream.Valid, EventStream.Queues, QueuesAfter, StopStep, Graceful, Since;
      if id == [] {
        return InvalidArgument;
      }
      ghost var s := State();
      ghost var queues := eventStream.Queues();
      var ok := manager.StopVM(id, force);
      assert Valid() && eventStream.Queues() == queues && State() == s.(agent := manager.State());
      hide Valid, State;
      if !ok {
        BroadcastEvent(VMEvent(id, EvError));
        return Failed;
      }
      BroadcastEvent(VMEvent(id, EvStopped));
      Count(0, -1);
      r := Done(());
    }

    method DeleteVM(id: Bytes) returns (r: Reply<()>)
      requires Valid()
      modifies this, manager, manager.host, eventStream.subscribers.Values
      ensures Valid() && eventStream.subscribers == old(eventStream.subscribers)
      ensures r.InvalidArgument? <==> id == []
      ensures r.InvalidArgument? ==> State() == old(State()) && eventStream.Queues() == old(eventStream.Queues())
      ensures !r.InvalidArgument? ==>
        && HandlerStep(manager.cfg, old(State()), Deleted(id, r.Done?), State())
        && eventStream.Queues() == QueuesAfter(old(eventStream.Queues()), if r.Done? then [VMEvent(id, EvDeleted)] else [])
        && log == old(log) + (if r.Done? then [VMEvent(id, EvDeleted)] else [])
        && vmsCreated == old(vmsCreated) && vmsRunning == old(vmsRunning) - (if r.Done? then 1 else 0)
    {
      hide Manager.Valid, Manager.State, EventStream.Valid, EventStream.Queues, QueuesAfter, DeleteStep;
      if id == [] {
        return InvalidArgument;
      }
      ghost var s := State();
      ghost var queues := eventStream.Queues();
      var ok := manager.DeleteVM(id);
      assert Valid() && eventStream.Queues() == queues && State() == s.(agent := manager.State());
      hide Valid, State;
      if !ok {
        AfterNone(eventStream.Queues());
        return Failed;
      }
      BroadcastEvent(VMEvent(id, EvDeleted));
      Count(0, -1);
      r := Done(());
    }

    /**
     * Watches events until the client leaves or cannot be reached. `arrivals` is what the channel
     * yields meanwhile; a closed channel yields the nil event. The subscription ends on every exit.
     */
    method WatchVMEvents(subscriberId: string, vmId: Bytes, arrivals: seq<Option<VMEvent>>)
        returns (sent: seq<Option<VMEvent>>, taken: nat, end: WatchEnd)
      requires Valid()
      modifies eventStream
      ensures Valid() && eventStream.Queues() == old(eventStream.Queues()) - {subscriberId}
      ensures Streamed(vmId, arrivals, sent, taken, end)
    {
      hide Manager.Valid, EventStream.Queues, Streamed;
      var _ := eventStream.Subscribe(subscriberId);
      sent, taken, end := Watch(vmId, arrivals);
      eventStream.Unsubscribe(subscriberId);
    }
  }

  // ------------------------------------------------------------------------- watching

  datatype WatchEnd = Disconnected | SendFailed | Panicked

  predicate Matches(vmId: Bytes, e: Option<VMEvent>) {
    vmId == [] || (e.Some? && e.value.vmId == vmId)
  }

  /** The part of a stream a client asked for. */
  function Matching(vmId: Bytes, events: seq<Option<VMEvent>>): seq<Option<VMEvent>> {
    if events == [] then []
    else
      Matching(vmId, events[..|events| - 1]) +
      if Matches(vmId, events[|events| - 1]) then [events[|events| - 1]] else []
  }

  /** The client got what it asked for of the first `taken` arrivals, and why no more. */
  predicate Streamed(vmId: Bytes, arrivals: seq<Option<VMEvent>>, sent: seq<Option<VMEvent>>, taken: nat, end: WatchEnd) {
    && taken <= |arrivals| && sent == Matching(vmId, arrivals[..taken])
    && (end.Disconnected? <==> taken == |arrivals|)
    && (end.SendFailed? ==> taken < |arrivals| && Matches(vmId, arrivals[taken]))
    && (end.Panicked? <==> taken < |arrivals| && arrivals[taken] == None && vmId != [])
  }

  /** The receive loop. With a filter, the nil event is dereferenced. */
  method Watch(vmId: Bytes, arrivals: seq<Option<VMEvent>>)
      returns (sent: seq<Option<VMEvent>>, taken: nat, end: WatchEnd)
    ensures Streamed(vmId, arrivals, sent, taken, end)
  {
    sent, taken := [], 0;
    while taken < |arrivals|
      invariant taken <= |arrivals| && sent == Matching(vmId, arrivals[..taken])
    {
      var event := arrivals[taken];
      assert arrivals[..taken + 1][..taken] == arrivals[..taken];
      if vmId != [] {
        if event.None? {
          return sent, taken, Panicked;
        }
        if event.value.vmId != vmId {
          taken := taken + 1;
          continue;
        }
      }
      var delivered := *;
      if !delivered {
        return sent, taken, SendFailed;
      }
      sent := sent + [event];
      taken := taken + 1;
    }
    end := Disconnected;
  }
}

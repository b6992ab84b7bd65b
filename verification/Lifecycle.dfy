/**
 * The manager as a concurrent protocol: any number of calls interleave in small steps around one
 * read-write lock, StopVM and StartVM go on without it after their lookup, and processes die at any
 * time. A VM record is named after its process, since neither outlives the pairing. All incarnations
 * of an id share one socket path, which StopVM removes outside the lock.
 */
module Lifecycle {
  import opened GoStrings

  type Id = Bytes

  datatype Op =
    | OpCreate(id: Id)
    | OpStart(id: Id)
    | OpStop(id: Id, force: bool)
    | OpDelete(id: Id)
    | OpGet(id: Id)

  datatype Resp =
    | Ok
    | AlreadyExists
    | CreateFailed
    | NotFound
    | CannotRestart
    | Reports(running: bool)

  datatype Pc =
    | Waiting                // for the lock
    | Locked                 // before the lookup
    | Spawned(pid: nat)      // create: process started and its socket seen, before the first request
    | Configuring(pid: nat)  // create: connected, before the last request
    | Killing(pid: nat)      // delete: found, before the kill
    | Removing(pid: nat)     // delete: killed, before the map delete
    | Probing(pid: nat)      // get: found, before the process check
    | Reading(pid: nat)      // get: process seen alive, before reading the stored state
    | Captured(pid: nat)     // start, stop: record in hand, read lock still held
    | Checking(pid: nat)     // start: before the process check
    | Asking(pid: nat)       // stop: before Ctrl-Alt-Del
    | Terming(pid: nat)      // stop: before SIGTERM
    | Reaping(pid: nat)      // stop: after SIGTERM, before the process check
    | Finishing(pid: nat)    // stop: SIGTERM was not enough, before the SIGKILL that follows it
    | Ending(pid: nat)       // stop: before the SIGKILL of a forced stop or of one whose request failed
    | Unlinking(pid: nat)    // stop: process ended, before the socket path is removed
    | Marking(pid: nat)      // stop: waiting for the write lock
    | MarkLocked(pid: nat)   // stop: before the stored state is set
    | DoneWriting(resp: Resp)
    | DoneReading(resp: Resp)
    | Done(resp: Resp)       // lock released
    | Returned(resp: Resp)

  /** `target` is the record a call found, once it has found one. */
  datatype Call = Call(op: Op, pc: Pc, target: Option<nat>)

  datatype Rec = Rec(id: Id, stopped: bool)

  datatype Sys = Sys(
    writer: Option<nat>,
    readers: set<nat>,
    vms: map<Id, nat>,
    recs: map<nat, Rec>,
    running: set<nat>,
    sockets: map<Id, nat>,   // whose socket is at the path of each id
    next: nat,               // every process so far has a smaller number
    calls: seq<Call>)

  const START := Sys(None, {}, map[], map[], {}, map[], 0, [])

  datatype Step =
    | Invoke(op: Op)
    | Acquire(o: nat)
    | Work(o: nat, ok: bool, obeys: bool)  // the outcomes the environment picks
    | Release(o: nat)
    | Respond(o: nat)
    | Crash(pid: nat)

  /** Record `n` is the one in the map. */
  predicate Registered(s: Sys, n: nat) {
    n in s.recs && s.recs[n].id in s.vms && s.vms[s.recs[n].id] == n
  }

  predicate Works(c: Call) {
    match c.pc
    case Locked => true
    case Spawned(_) => c.op.OpCreate?
    case Configuring(_) => c.op.OpCreate?
    case Killing(_) => c.op.OpDelete?
    case Removing(_) => c.op.OpDelete?
    case Probing(_) => c.op.OpGet?
    case Reading(n) => c.op.OpGet?
    case Checking(_) => c.op.OpStart?
    case Asking(_) => c.op.OpStop?
    case Terming(_) => c.op.OpStop?
    case Reaping(_) => c.op.OpStop?
    case Finishing(_) => c.op.OpStop?
    case Ending(_) => c.op.OpStop?
    case Unlinking(_) => c.op.OpStop?
    case MarkLocked(_) => c.op.OpStop?
    case _ => false
  }

  /** Who answers when a client connects to the socket path of `id`. */
  function Listener(s: Sys, id: Id): Option<nat> {
    if id in s.sockets && s.sockets[id] in s.running then Some(s.sockets[id]) else None
  }

  /**
   * Who a stop's Ctrl-Alt-Del reaches: the process it found, over the connection kept from its
   * configuration if not by its socket; when that one is dead, whoever listens on the shared path.
   */
  function Reached(s: Sys, id: Id, n: nat): Option<nat> {
    if n in s.running then Some(n) else Listener(s, id)
  }

  predicate NeedsRecord(c: Call) { c.pc.Reading? || c.pc.MarkLocked? }

  predicate Enabled(s: Sys, e: Step) {
    match e
    case Invoke(_) => true
    case Acquire(o) =>
      o < |s.calls| && s.writer.None? &&
      (var c := s.calls[o];
       if c.op.OpCreate? || c.op.OpDelete? then c.pc.Waiting? && s.readers == {}
       else c.pc.Waiting? || (c.op.OpStop? && c.pc.Marking? && s.readers == {}))
    case Work(o, ok, _) =>
      o < |s.calls| && Works(s.calls[o])
      && (NeedsRecord(s.calls[o]) ==> s.calls[o].pc.pid in s.recs)
      // requests that succeed reached a live process
      && (s.calls[o].pc.Spawned? && ok ==> Listener(s, s.calls[o].op.id) == Some(s.calls[o].pc.pid))
      && (s.calls[o].pc.Asking? && ok ==> Reached(s, s.calls[o].op.id, s.calls[o].pc.pid).Some?)
    case Release(o) =>
      o < |s.calls| && (s.calls[o].pc.DoneWriting? || s.calls[o].pc.DoneReading? || s.calls[o].pc.Captured?)
    case Respond(o) => o < |s.calls| && s.calls[o].pc.Done?
    case Crash(pid) => pid in s.running
  }

  function At(s: Sys, o: nat, pc: Pc): Sys
    requires o < |s.calls|
  {
    s.(calls := s.calls[o := s.calls[o].(pc := pc)])
  }

  /** The lookup found record `n`. */
  function Found(s: Sys, o: nat, pc: Pc, n: nat): Sys
    requires o < |s.calls|
  {
    s.(calls := s.calls[o := s.calls[o].(pc := pc, target := Some(n))])
  }

  function WorkLocked(s: Sys, o: nat, ok: bool): Sys
    requires o < |s.calls|
  {
    var op := s.calls[o].op;
    match op
    case OpCreate(id) =>
      if id in s.vms then At(s, o, DoneWriting(AlreadyExists))
      else if ok then
        At(s, o, Spawned(s.next)).(
          running := s.running + {s.next}, sockets := s.sockets[id := s.next], next := s.next + 1)
      else At(s, o, DoneWriting(CreateFailed))
    case OpDelete(id) =>
      if id in s.vms then Found(s, o, Killing(s.vms[id]), s.vms[id]) else At(s, o, DoneWriting(NotFound))
    case OpGet(id) =>
      if id in s.vms then Found(s, o, Probing(s.vms[id]), s.vms[id]) else At(s, o, DoneReading(NotFound))
    case OpStart(id) =>
      if id in s.vms then Found(s, o, Captured(s.vms[id]), s.vms[id]) else At(s, o, DoneReading(NotFound))
    case OpStop(id, _) =>
      if id in s.vms then Found(s, o, Captured(s.vms[id]), s.vms[id]) else At(s, o, DoneReading(NotFound))
  }

  /** A creation gives up: its process is killed, and its socket removed if that succeeds. */
  function RolledBack(s: Sys, o: nat, n: nat, removed: bool): Sys
    requires o < |s.calls|
  {
    At(s, o, DoneWriting(CreateFailed)).(
      running := s.running - {n}, sockets := if removed then s.sockets - {s.calls[o].op.id} else s.sockets)
  }

  function WorkOn(s: Sys, o: nat, ok: bool, obeys: bool): Sys
    requires Enabled(s, Work(o, ok, obeys))
  {
    var op := s.calls[o].op;
    match s.calls[o].pc
    case Locked => WorkLocked(s, o, ok)
    case Spawned(n) => if ok then At(s, o, Configuring(n)) else RolledBack(s, o, n, obeys)
    case Configuring(n) =>
      if ok then At(s, o, DoneWriting(Ok)).(vms := s.vms[op.id := n], recs := s.recs[n := Rec(op.id, false)])
      else RolledBack(s, o, n, obeys)
    case Killing(n) => At(s, o, Removing(n)).(running := s.running - {n})
    case Removing(n) =>
      At(s, o, DoneWriting(Ok)).(vms := s.vms - {op.id}, sockets := if ok then s.sockets - {op.id} else s.sockets)
    case Probing(n) => if n in s.running then At(s, o, Reading(n)) else At(s, o, DoneReading(Reports(false)))
    case Reading(n) => At(s, o, DoneReading(Reports(!s.recs[n].stopped)))
    case Checking(n) => At(s, o, Done(if n in s.running then Ok else CannotRestart))
    case Asking(n) =>
      // a request that fails may have arrived all the same
      var s' := At(s, o, if ok then Terming(n) else Ending(n));
      var reached := Reached(s, op.id, n);
      if obeys && reached.Some? then s'.(running := s.running - {reached.value}) else s'
    case Terming(n) =>
      if n !in s.running then At(s, o, Unlinking(n))
      else if obeys then At(s, o, Reaping(n)).(running := s.running - {n})
      else At(s, o, Reaping(n))
    case Reaping(n) => if n in s.running then At(s, o, Finishing(n)) else At(s, o, Unlinking(n))
    case Finishing(n) => At(s, o, Unlinking(n)).(running := s.running - {n})
    case Ending(n) =>
      // a SIGKILL that fails ends Kill before it removes the socket
      if n in s.running then At(s, o, Unlinking(n)).(running := s.running - {n}) else At(s, o, Marking(n))
    case Unlinking(n) => At(s, o, Marking(n)).(sockets := if ok then s.sockets - {op.id} else s.sockets)
    case MarkLocked(n) => At(s, o, DoneWriting(Ok)).(recs := s.recs[n := s.recs[n].(stopped := true)])
    case _ => s
  }

  function Next(s: Sys, e: Step): Sys
    requires Enabled(s, e)
  {
    match e
    case Invoke(op) => s.(calls := s.calls + [Call(op, Waiting, None)])
    case Acquire(o) =>
      var c := s.calls[o];
      if c.pc.Marking? then At(s, o, MarkLocked(c.pc.pid)).(writer := Some(o))
      else if c.op.OpCreate? || c.op.OpDelete? then At(s, o, Locked).(writer := Some(o))
      else At(s, o, Locked).(readers := s.readers + {o})
    case Work(o, ok, obeys) => WorkOn(s, o, ok, obeys)
    case Release(o) =>
      var c := s.calls[o];
      (match c.pc
       case DoneWriting(r) => At(s, o, Done(r)).(writer := None)
       case DoneReading(r) => At(s, o, Done(r)).(readers := s.readers - {o})
       case _ =>
         var n := c.pc.pid;
         var pc := if c.op.OpStart? then Checking(n)
                   else if c.op.OpStop? && c.op.force then Ending(n)
                   else Asking(n);
         At(s, o, pc).(readers := s.readers - {o}))
    case Respond(o) => At(s, o, Returned(s.calls[o].pc.resp))
    case Crash(pid) => s.(running := s.running - {pid})
  }

  ghost function Exec(steps: seq<Step>): Option<Sys> {
    if steps == [] then Some(START)
    else
      var before := Exec(steps[..|steps| - 1]);
      if before.Some? && Enabled(before.value, steps[|steps| - 1])
      then Some(Next(before.value, steps[|steps| - 1])) else None
  }

  // ---------------------------------------------------------------------------- the invariant

  predicate HoldsWrite(c: Call) {
    match c.pc
    case Locked => c.op.OpCreate? || c.op.OpDelete?
    case Spawned(_) => true
    case Configuring(_) => true
    case Killing(_) => true
    case Removing(_) => true
    case MarkLocked(_) => true
    case DoneWriting(_) => true
    case _ => false
  }

  predicate HoldsRead(c: Call) {
    match c.pc
    case Locked => !c.op.OpCreate? && !c.op.OpDelete?
    case Probing(_) => true
    case Reading(_) => true
    case Captured(_) => true
    case DoneReading(_) => true
    case _ => false
  }

  /** The write lock excludes everyone, the read lock excludes writers. */
  ghost predicate LockOk(s: Sys) {
    && (s.writer.Some? ==> s.readers == {} && s.writer.value < |s.calls|)
    && (forall o :: o in s.readers ==> o < |s.calls|)
    && (forall o :: 0 <= o < |s.calls| ==>
          && (HoldsWrite(s.calls[o]) <==> s.writer == Some(o))
          && (HoldsRead(s.calls[o]) <==> o in s.readers))
  }

  /** Record `n`, found by a call on `id`, was once registered under `id`. */
  predicate Known(s: Sys, id: Id, n: nat) { n in s.recs && s.recs[n].id == id }

  predicate InMap(s: Sys, id: Id, n: nat) { id in s.vms && s.vms[id] == n && Known(s, id, n) }

  /** What is true at each point of a call. */
  predicate CallOk(s: Sys, c: Call) {
    var id := c.op.id;
    match c.pc
    case Spawned(n) => c.op.OpCreate? && id !in s.vms && n !in s.recs && n < s.next
    case Configuring(n) => c.op.OpCreate? && id !in s.vms && n !in s.recs && n < s.next
    case Killing(n) => c.op.OpDelete? && InMap(s, id, n)
    case Removing(n) => c.op.OpDelete? && InMap(s, id, n) && n !in s.running
    case Probing(n) => c.op.OpGet? && InMap(s, id, n)
    case Reading(n) => c.op.OpGet? && InMap(s, id, n) && !s.recs[n].stopped
    case Captured(n) => (c.op.OpStart? || c.op.OpStop?) && InMap(s, id, n) && c.target == Some(n)
    case Checking(n) => c.op.OpStart? && Known(s, id, n) && c.target == Some(n)
    case Asking(n) => c.op.OpStop? && !c.op.force && Known(s, id, n) && c.target == Some(n)
    case Terming(n) => c.op.OpStop? && !c.op.force && Known(s, id, n) && c.target == Some(n)
    case Reaping(n) => c.op.OpStop? && !c.op.force && Known(s, id, n) && c.target == Some(n)
    case Finishing(n) => c.op.OpStop? && !c.op.force && Known(s, id, n) && c.target == Some(n)
    case Ending(n) => c.op.OpStop? && Known(s, id, n) && c.target == Some(n)
    case Unlinking(n) => c.op.OpStop? && Known(s, id, n) && n !in s.running && c.target == Some(n)
    case Marking(n) => c.op.OpStop? && Known(s, id, n) && n !in s.running && c.target == Some(n)
    case MarkLocked(n) => c.op.OpStop? && Known(s, id, n) && n !in s.running && c.target == Some(n)
    case DoneWriting(r) => (c.op.OpStop? ==> StopDone(s, c, r)) && (c.op.OpCreate? || c.op.OpDelete? || c.op.OpStop?)
    case DoneReading(r) => c.op.OpStop? ==> r == NotFound
    case Done(r) => c.op.OpStop? ==> StopDone(s, c, r)
    case Returned(r) => c.op.OpStop? ==> StopDone(s, c, r)
    case _ => true
  }

  /** A stop that has succeeded left the process it found dead. */
  predicate StopDone(s: Sys, c: Call, r: Resp) {
    r == NotFound || (r == Ok && c.target.Some? && c.target.value !in s.running && c.target.value in s.recs)
  }

  ghost predicate RecsOk(s: Sys) {
    && (forall id :: id in s.vms ==> InMap(s, id, s.vms[id]))
    && (forall n :: n in s.recs ==> n < s.next)
    && (forall n :: n in s.running ==> n < s.next)
    // a record that is no longer in the map, or is marked stopped, has a dead process
    && (forall n :: n in s.recs && n in s.running ==> Registered(s, n) && !s.recs[n].stopped)
    // and a live process without a record is that of the creation under way
    && (forall n :: n in s.running && n !in s.recs ==>
          s.writer.Some? && s.writer.value < |s.calls| && Creates(s.calls[s.writer.value], n))
  }

  /** Process `n` belongs to this creation, not registered yet. */
  predicate Creates(c: Call, n: nat) { c.pc == Spawned(n) || c.pc == Configuring(n) }

  /** A socket is that of the VM registered under its id, or of the one being created, or nobody listens on it. */
  ghost predicate SocketOk(s: Sys, id: Id)
    requires id in s.sockets
  {
    var m := s.sockets[id];
    && m < s.next
    && (id in s.vms ==> m == s.vms[id])
    && (forall o, n :: 0 <= o < |s.calls| && s.calls[o].op == OpCreate(id) && Creates(s.calls[o], n) ==> m == n)
    && (m in s.running && id !in s.vms ==>
          s.writer.Some? && s.writer.value < |s.calls| && s.calls[s.writer.value].op == OpCreate(id)
          && Creates(s.calls[s.writer.value], m))
  }

  ghost predicate SocketsOk(s: Sys) {
    forall id :: id in s.sockets ==> SocketOk(s, id)
  }

  ghost predicate SysInv(s: Sys) {
    && LockOk(s)
    && RecsOk(s)
    && SocketsOk(s)
    && forall o :: 0 <= o < |s.calls| ==> CallOk(s, s.calls[o])
  }

  // -------------------------------------------------------------- the atomic object it behaves as

  /** A call, its taking effect, a process death, a return. Calls are numbered by invocation. */
  datatype Event =
    | Inv(op: Op)
    | Lin(o: nat, resp: Resp)
    | Died(id: Id)
    | Res(o: nat, resp: Resp)

  datatype Status = Pending(op: Op) | Effective(op: Op, resp: Resp) | Answered(op: Op, resp: Resp)

  /** Which VMs there are, whether each runs, and where each call stands. */
  datatype Atomic = Atomic(vms: map<Id, bool>, calls: seq<Status>)

  /** The effect of a whole call answering `r`; None if it may not answer that now. */
  function Effect(vms: map<Id, bool>, op: Op, r: Resp): Option<map<Id, bool>> {
    match (op, r)
    case (OpCreate(id), AlreadyExists) => if id in vms then Some(vms) else None
    case (OpCreate(id), CreateFailed) => if id in vms then None else Some(vms)
    case (OpCreate(id), Ok) => if id in vms then None else Some(vms[id := true])
    case (OpCreate(_), _) => None
    case (_, NotFound) => if op.id in vms then None else Some(vms)
    case (OpStart(id), Ok) => if id in vms && vms[id] then Some(vms) else None
    case (OpStart(id), CannotRestart) => if id in vms && !vms[id] then Some(vms) else None
    case (OpStop(id, _), Ok) => if id in vms then Some(vms[id := false]) else None
    case (OpDelete(id), Ok) => if id in vms then Some(vms - {id}) else None
    case (OpGet(id), Reports(b)) => if id in vms && vms[id] == b then Some(vms) else None
    case (_, _) => None
  }

  /** Each call takes effect once, between its invocation and its return, and answers accordingly. */
  function Accept(q: Atomic, ev: Event): Option<Atomic> {
    match ev
    case Inv(op) => Some(q.(calls := q.calls + [Pending(op)]))
    case Lin(o, r) =>
      if o < |q.calls| && q.calls[o].Pending? && Effect(q.vms, q.calls[o].op, r).Some?
      then Some(Atomic(Effect(q.vms, q.calls[o].op, r).value, q.calls[o := Effective(q.calls[o].op, r)]))
      else None
    case Died(id) => if id in q.vms && q.vms[id] then Some(q.(vms := q.vms[id := false])) else None
    case Res(o, r) =>
      if o < |q.calls| && q.calls[o].Effective? && q.calls[o].resp == r
      then Some(q.(calls := q.calls[o := Answered(q.calls[o].op, r)])) else None
  }

  function AcceptAll(q: Atomic, h: seq<Event>): Option<Atomic>
    decreases |h|
  {
    if h == [] then Some(q)
    else
      var before := AcceptAll(q, h[..|h| - 1]);
      if before.None? then None else Accept(before.value, h[|h| - 1])
  }

  const NOTHING := Atomic(map[], [])

  /** What a client sees. */
  function External(h: seq<Event>): seq<Event> {
    if h == [] then []
    else
      var last := h[|h| - 1];
      External(h[..|h| - 1]) + if last.Inv? || last.Res? then [last] else []
  }

  /** What a step shows to clients. */
  function Shown(s: Sys, e: Step): seq<Event>
    requires Enabled(s, e)
  {
    match e
    case Invoke(op) => [Inv(op)]
    case Respond(o) => [Res(o, s.calls[o].pc.resp)]
    case _ => []
  }

  ghost function Trace(steps: seq<Step>): seq<Event>
    requires Exec(steps).Some?
  {
    if steps == [] then []
    else Trace(steps[..|steps| - 1]) + Shown(Exec(steps[..|steps| - 1]).value, steps[|steps| - 1])
  }
}

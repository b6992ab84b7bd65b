/**
 * The protocol of module Lifecycle is linearizable: every interleaving looks to clients like the
 * atomic object. The proof reads the atomic object's state off the protocol's at every step. A stop
 * or start whose record is deleted under it takes effect at that moment, helped by the delete.
 */
module Linearizability {
  import opened GoStrings
  import opened Lifecycle

  // ----------------------------------------------------------------- the state clients cannot see

  /** A registered VM runs exactly when its process lives. */
  function Abs(s: Sys): map<Id, bool> {
    map id | id in s.vms :: s.vms[id] in s.running
  }

  /** The record a start or stop still has to act on. */
  predicate Awaits(c: Call, n: nat) {
    match c.pc
    case Captured(m) => m == n
    case Checking(m) => m == n
    case Asking(m) => m == n
    case Terming(m) => m == n
    case Reaping(m) => m == n
    case Finishing(m) => m == n
    case Ending(m) => m == n
    case _ => false
  }

  /** What a start or stop answers when its record was deleted first. */
  function LateAnswer(op: Op): Resp { if op.OpStart? then CannotRestart else Ok }

  function StatusOf(s: Sys, c: Call): Status {
    match c.pc
    case DoneWriting(r) => Effective(c.op, r)
    case DoneReading(r) => Effective(c.op, r)
    case Done(r) => Effective(c.op, r)
    case Returned(r) => Answered(c.op, r)
    case Reading(_) => Effective(c.op, Reports(true))
    case Unlinking(_) => Effective(c.op, Ok)
    case Marking(_) => Effective(c.op, Ok)
    case MarkLocked(_) => Effective(c.op, Ok)
    case Captured(n) => Late(s, c, n)
    case Checking(n) => Late(s, c, n)
    case Asking(n) => Late(s, c, n)
    case Terming(n) => Late(s, c, n)
    case Reaping(n) => Late(s, c, n)
    case Finishing(n) => Late(s, c, n)
    case Ending(n) => Late(s, c, n)
    case _ => Pending(c.op)
  }

  function Late(s: Sys, c: Call, n: nat): Status {
    if Registered(s, n) then Pending(c.op) else Effective(c.op, LateAnswer(c.op))
  }

  function Statuses(s: Sys): seq<Status> {
    seq(|s.calls|, o requires 0 <= o < |s.calls| => StatusOf(s, s.calls[o]))
  }

  function AtomicOf(s: Sys): Atomic { Atomic(Abs(s), Statuses(s)) }

  // ---------------------------------------------------------------------- what each step amounts to

  function DeathOf(s: Sys, n: nat): seq<Event> {
    if n in s.running && Registered(s, n) then [Died(s.recs[n].id)] else []
  }

  function StopTakesEffect(s: Sys, o: nat, n: nat): seq<Event> {
    if Registered(s, n) then [Lin(o, Ok)] else []
  }

  /** The calls before `k` that wait on record `n` take effect. */
  function Helped(s: Sys, n: nat, k: nat): seq<Event>
    requires k <= |s.calls|
  {
    if k == 0 then []
    else Helped(s, n, k - 1) + if Awaits(s.calls[k - 1], n) then [Lin(k - 1, LateAnswer(s.calls[k - 1].op))] else []
  }

  function EventsOf(s: Sys, e: Step): seq<Event>
    requires Enabled(s, e)
  {
    match e
    case Invoke(op) => [Inv(op)]
    case Acquire(_) => []
    case Release(_) => []
    case Respond(o) => [Res(o, s.calls[o].pc.resp)]
    case Crash(pid) => DeathOf(s, pid)
    case Work(o, ok, obeys) =>
      var c := s.calls[o];
      match c.pc
      case Locked =>
        (match WorkLocked(s, o, ok).calls[o].pc
         case DoneWriting(r) => [Lin(o, r)]
         case DoneReading(r) => [Lin(o, r)]
         case _ => [])
      case Spawned(n) => if ok then [] else [Lin(o, CreateFailed)]
      case Configuring(n) =>
        if !ok then [Lin(o, CreateFailed)]
        else if n in s.running then [Lin(o, Ok)]
        else [Lin(o, Ok), Died(c.op.id)]
      case Killing(n) => DeathOf(s, n)
      case Removing(n) => Helped(s, n, |s.calls|) + [Lin(o, Ok)]
      case Probing(n) => [Lin(o, Reports(n in s.running))]
      case Checking(n) => if Registered(s, n) then [Lin(o, if n in s.running then Ok else CannotRestart)] else []
      case Asking(n) =>
        var reached := Reached(s, c.op.id, n);
        if obeys && reached.Some? then DeathOf(s, reached.value) else []
      case Terming(n) =>
        if n !in s.running then StopTakesEffect(s, o, n) else if obeys then DeathOf(s, n) else []
      case Reaping(n) => if n in s.running then [] else StopTakesEffect(s, o, n)
      case Finishing(n) => StopTakesEffect(s, o, n)
      case Ending(n) => StopTakesEffect(s, o, n)
      case _ => []
  }

  // ----------------------------------------------------------------------- feeding events

  lemma AcceptOne(q: Atomic, ev: Event)
    ensures AcceptAll(q, [ev]) == Accept(q, ev)
  {
    assert [ev][..0] == [];
    assert AcceptAll(q, []) == Some(q);
  }

  lemma {:induction false} AcceptAppend(q: Atomic, g: seq<Event>, h: seq<Event>)
    ensures AcceptAll(q, g + h) == if AcceptAll(q, g).None? then None else AcceptAll(AcceptAll(q, g).value, h)
    decreases |h|
  {
    if h == [] {
      assert g + h == g;
    } else {
      assert (g + h)[..|g + h| - 1] == g + h[..|h| - 1];
      AcceptAppend(q, g, h[..|h| - 1]);
    }
  }

  lemma {:induction false} ExternalAppend(g: seq<Event>, h: seq<Event>)
    ensures External(g + h) == External(g) + External(h)
    decreases |h|
  {
    if h == [] {
      assert g + h == g;
    } else {
      assert (g + h)[..|g + h| - 1] == g + h[..|h| - 1];
      ExternalAppend(g, h[..|h| - 1]);
    }
  }

  predicate AllInternal(h: seq<Event>) {
    forall i :: 0 <= i < |h| ==> h[i].Lin? || h[i].Died?
  }

  lemma {:induction false} InternalIsHidden(h: seq<Event>)
    requires AllInternal(h)
    ensures External(h) == []
  {
    if h != [] { InternalIsHidden(h[..|h| - 1]); }
  }

  lemma {:induction false} HelpedIsInternal(s: Sys, n: nat, k: nat)
    requires k <= |s.calls|
    ensures AllInternal(Helped(s, n, k))
  {
    if k > 0 { HelpedIsInternal(s, n, k - 1); }
  }

  lemma ExternalOne(ev: Event)
    ensures External([ev]) == if ev.Inv? || ev.Res? then [ev] else []
  {
    assert [ev][..0] == [] && External([]) == [];
  }

  lemma EventsAreShown(s: Sys, e: Step)
    requires Enabled(s, e)
    ensures External(EventsOf(s, e)) == Shown(s, e)
  {
    if e.Invoke? || e.Respond? {
      ExternalOne(EventsOf(s, e)[0]);
    } else {
      if e.Work? && s.calls[e.o].pc.Removing? { HelpedIsInternal(s, s.calls[e.o].pc.pid, |s.calls|); }
      assert AllInternal(EventsOf(s, e));
      InternalIsHidden(EventsOf(s, e));
    }
  }

  // ---------------------------------------------------------------- keeping the invariant

  /** A step of call `o`: the others stay where they are, and only a writer touches the map. */
  ghost predicate Evolves(s: Sys, s': Sys, o: nat) {
    && o < |s.calls| == |s'.calls|
    && (forall i :: 0 <= i < |s.calls| && i != o ==> s'.calls[i] == s.calls[i])
    && (s.writer == Some(o) || (s'.vms == s.vms && s'.recs == s.recs))
    && (forall n :: n in s.recs ==> n in s'.recs && s'.recs[n].id == s.recs[n].id)
    && (forall n :: n in s'.running ==> n in s.running || n >= s.next)
    && s'.next >= s.next
  }

  lemma OtherCallsKept(s: Sys, s': Sys, o: nat, i: nat)
    requires LockOk(s) && RecsOk(s) && Evolves(s, s', o)
    requires i < |s.calls| && i != o && CallOk(s, s.calls[i])
    ensures CallOk(s', s'.calls[i])
  {
  }

  lemma LockKept(s: Sys, s': Sys, o: nat)
    requires LockOk(s) && o < |s.calls| == |s'.calls|
    requires forall i :: 0 <= i < |s.calls| && i != o ==> s'.calls[i] == s.calls[i]
    requires forall i :: i != o ==> (s'.writer == Some(i) <==> s.writer == Some(i)) && (i in s'.readers <==> i in s.readers)
    requires HoldsWrite(s'.calls[o]) <==> s'.writer == Some(o)
    requires HoldsRead(s'.calls[o]) <==> o in s'.readers
    requires s'.writer.Some? ==> s'.readers == {}
    ensures LockOk(s')
  {
  }

  /** In a step of call `o` a creation under way goes on, unless its process ended. */
  ghost predicate GoesOn(s: Sys, s': Sys, o: nat) {
    && o < |s.calls| == |s'.calls|
    && (forall i :: 0 <= i < |s.calls| && i != o ==> s'.calls[i] == s.calls[i])
    && s'.calls[o].op == s.calls[o].op
    && (forall n :: Creates(s'.calls[o], n) ==> Creates(s.calls[o], n))
    && (forall n :: Creates(s.calls[o], n) && n in s'.running ==> Creates(s'.calls[o], n))
    && (s.writer.Some? ==>
          s'.writer == s.writer || (s.writer.value == o && forall n :: Creates(s.calls[o], n) ==> n !in s'.running))
  }

  /** Sockets stay right when some go and processes end. */
  lemma SocketsKept(s: Sys, s': Sys, o: nat)
    requires SocketsOk(s) && GoesOn(s, s', o)
    requires s'.next >= s.next && s'.vms == s.vms && s'.running <= s.running
    requires forall id :: id in s'.sockets ==> id in s.sockets && s'.sockets[id] == s.sockets[id]
    ensures SocketsOk(s')
  {
    forall id | id in s'.sockets ensures SocketOk(s', id) {
      assert SocketOk(s, id);
    }
  }

  /** Everything but the records and the sockets themselves. */
  lemma CallsKept(s: Sys, s': Sys, o: nat)
    requires SysInv(s) && Evolves(s, s', o)
    requires forall i :: i != o ==> (s'.writer == Some(i) <==> s.writer == Some(i)) && (i in s'.readers <==> i in s.readers)
    requires HoldsWrite(s'.calls[o]) <==> s'.writer == Some(o)
    requires HoldsRead(s'.calls[o]) <==> o in s'.readers
    requires s'.writer.Some? ==> s'.readers == {}
    requires RecsOk(s') && SocketsOk(s') && CallOk(s', s'.calls[o])
    ensures SysInv(s')
  {
    LockKept(s, s', o);
    forall i | 0 <= i < |s'.calls| ensures CallOk(s', s'.calls[i]) {
      if i != o { OtherCallsKept(s, s', o, i); }
    }
  }

  // ------------------------------------------------------------------ what a step does to the view

  lemma OtherStatuses(s: Sys, s': Sys, o: nat)
    requires o < |s.calls| == |s'.calls|
    requires forall i :: 0 <= i < |s.calls| && i != o ==> s'.calls[i] == s.calls[i]
    requires forall i, n :: 0 <= i < |s.calls| && i != o && Awaits(s.calls[i], n) ==> (Registered(s', n) <==> Registered(s, n))
    ensures Statuses(s') == Statuses(s)[o := StatusOf(s', s'.calls[o])]
  {
    forall i | 0 <= i < |s.calls| && i != o ensures StatusOf(s', s'.calls[i]) == StatusOf(s, s.calls[i]) {
      var c := s.calls[i];
      assert c.pc.Captured? || c.pc.Checking? || c.pc.Asking? || c.pc.Terming? || c.pc.Reaping? || c.pc.Finishing? || c.pc.Ending? ==>
        Awaits(c, c.pc.pid);
    }
  }

  /** Map and records are as before, and at most process `t` ended. */
  predicate Calm(s: Sys, s': Sys, o: nat, t: nat) {
    && s'.vms == s.vms && s'.recs == s.recs && s'.running == s.running - {t} && s'.next == s.next
    && o < |s.calls| == |s'.calls|
    && (forall i :: 0 <= i < |s.calls| && i != o ==> s'.calls[i] == s.calls[i])
    && forall id :: id in s'.sockets ==> id in s.sockets && s'.sockets[id] == s.sockets[id]
  }

  function AbsWithout(s: Sys, t: nat): map<Id, bool> {
    if Registered(s, t) then Abs(s)[s.recs[t].id := false] else Abs(s)
  }

  lemma AbsShrink(s: Sys, s': Sys, t: nat)
    requires RecsOk(s) && s'.vms == s.vms && s'.running == s.running - {t}
    ensures Abs(s') == AbsWithout(s, t)
  {
    forall id | id in s.vms && s.vms[id] == t ensures Registered(s, t) && s.recs[t].id == id {
      assert InMap(s, id, s.vms[id]);
    }
  }

  lemma CalmView(s: Sys, s': Sys, o: nat, t: nat)
    requires RecsOk(s) && Calm(s, s', o, t)
    ensures AtomicOf(s') == Atomic(AbsWithout(s, t), Statuses(s)[o := StatusOf(s', s'.calls[o])])
  {
    OtherStatuses(s, s', o);
    AbsShrink(s, s', t);
  }

  lemma DeathAccepted(s: Sys, t: nat)
    ensures AcceptAll(AtomicOf(s), DeathOf(s, t)) == Some(Atomic(AbsWithout(s, t), Statuses(s)))
  {
    if t in s.running && Registered(s, t) {
      AcceptOne(AtomicOf(s), Died(s.recs[t].id));
    } else if t !in s.running {
      DeadAlready(s, t);
    }
  }

  lemma DeadAlready(s: Sys, t: nat)
    requires t !in s.running
    ensures AbsWithout(s, t) == Abs(s)
  {
  }

  lemma LinAccepted(s: Sys, o: nat, r: Resp)
    requires o < |s.calls| && StatusOf(s, s.calls[o]) == Pending(s.calls[o].op)
    requires Effect(Abs(s), s.calls[o].op, r).Some?
    ensures AcceptAll(AtomicOf(s), [Lin(o, r)]) ==
      Some(Atomic(Effect(Abs(s), s.calls[o].op, r).value, Statuses(s)[o := Effective(s.calls[o].op, r)]))
  {
    AcceptOne(AtomicOf(s), Lin(o, r));
  }

  // --------------------------------------------------------------------- one lemma per kind of step

  ghost predicate Simulated(s: Sys, e: Step)
    requires Enabled(s, e)
  {
    SysInv(Next(s, e)) && AcceptAll(AtomicOf(s), EventsOf(s, e)) == Some(AtomicOf(Next(s, e)))
  }

  lemma AcceptNothing(q: Atomic)
    ensures AcceptAll(q, []) == Some(q)
  {
  }

  lemma SameStatuses(s: Sys, o: nat)
    requires o < |s.calls|
    ensures Statuses(s)[o := StatusOf(s, s.calls[o])] == Statuses(s)
  {
  }

  lemma InvokeSimulated(s: Sys, op: Op)
    requires SysInv(s)
    ensures Simulated(s, Invoke(op))
  {
    var s' := Next(s, Invoke(op));
    AcceptOne(AtomicOf(s), Inv(op));
    assert Statuses(s') == Statuses(s) + [Pending(op)] by {
      forall i | 0 <= i < |s.calls| ensures StatusOf(s', s'.calls[i]) == StatusOf(s, s.calls[i]) {}
    }
    forall i | 0 <= i < |s.calls| ensures CallOk(s', s'.calls[i]) {
      assert CallOk(s, s.calls[i]);
    }
    assert |s.calls| !in s.readers ==> LockOk(s');
    assert RecsOk(s');
  }

  lemma CrashSimulated(s: Sys, pid: nat)
    requires SysInv(s) && Enabled(s, Crash(pid))
    ensures Simulated(s, Crash(pid))
  {
    var s' := Next(s, Crash(pid));
    DeathAccepted(s, pid);
    AbsShrink(s, s', pid);
    assert Statuses(s') == Statuses(s) by {
      forall i | 0 <= i < |s.calls| ensures StatusOf(s', s'.calls[i]) == StatusOf(s, s.calls[i]) {}
    }
    forall i | 0 <= i < |s.calls| ensures CallOk(s', s'.calls[i]) {
      assert CallOk(s, s.calls[i]);
    }
    assert RecsOk(s');
    assert LockOk(s');
  }

  // ------------------------------------------------------------------- taking and leaving the lock

  /** What the calm steps keep: records and sockets, and with the lock the whole invariant. */
  lemma CalmKeepsRecs(s: Sys, s': Sys, o: nat, t: nat)
    requires RecsOk(s) && SocketsOk(s) && Calm(s, s', o, t) && GoesOn(s, s', o)
    ensures RecsOk(s') && SocketsOk(s')
  {
    SocketsKept(s, s', o);
    forall n | n in s'.running && n !in s'.recs
      ensures s'.writer.Some? && s'.writer.value < |s'.calls| && Creates(s'.calls[s'.writer.value], n)
    {
      assert s.writer.Some? && Creates(s.calls[s.writer.value], n);
    }
  }

  lemma CalmKeepsInv(s: Sys, s': Sys, o: nat, t: nat)
    requires SysInv(s) && Calm(s, s', o, t) && GoesOn(s, s', o)
    requires forall i :: i != o ==> (s'.writer == Some(i) <==> s.writer == Some(i)) && (i in s'.readers <==> i in s.readers)
    requires HoldsWrite(s'.calls[o]) <==> s'.writer == Some(o)
    requires HoldsRead(s'.calls[o]) <==> o in s'.readers
    requires s'.writer.Some? ==> s'.readers == {}
    requires CallOk(s', s'.calls[o])
    ensures SysInv(s')
  {
    hide RecsOk, SocketsOk, LockOk, CallOk, GoesOn, HoldsWrite, HoldsRead;
    CalmKeepsRecs(s, s', o, t);
    CalmIsEvolution(s, s', o, t);
    CallsKept(s, s', o);
  }

  lemma CalmIsEvolution(s: Sys, s': Sys, o: nat, t: nat)
    requires Calm(s, s', o, t)
    ensures Evolves(s, s', o)
  {
  }

  lemma AcquireKeepsInv(s: Sys, o: nat)
    requires SysInv(s) && Enabled(s, Acquire(o))
    ensures SysInv(Next(s, Acquire(o)))
  {
    assert CallOk(s, s.calls[o]) && s.next !in s.running;
    hide RecsOk, SocketsOk;
    CalmKeepsInv(s, Next(s, Acquire(o)), o, s.next);
  }

  lemma AcquireView(s: Sys, o: nat)
    requires SysInv(s) && Enabled(s, Acquire(o))
    ensures AtomicOf(Next(s, Acquire(o))) == AtomicOf(s)
  {
    var s' := Next(s, Acquire(o));
    CalmView(s, s', o, s.next);
    DeadAlready(s, s.next);
    hide SysInv;
    SameStatuses(s, o);
  }

  lemma AcquireSimulated(s: Sys, o: nat)
    requires SysInv(s) && Enabled(s, Acquire(o))
    ensures Simulated(s, Acquire(o))
  {
    hide SysInv, Next;
    AcquireKeepsInv(s, o);
    AcquireView(s, o);
    AcceptNothing(AtomicOf(s));
  }

  lemma ReleaseWriteKeepsInv(s: Sys, o: nat)
    requires SysInv(s) && o < |s.calls| && s.calls[o].pc.DoneWriting?
    ensures SysInv(Next(s, Release(o)))
  {
    assert CallOk(s, s.calls[o]) && s.next !in s.running;
    var s' := Next(s, Release(o));
    assert s' == At(s, o, Done(s.calls[o].pc.resp)).(writer := None);
    assert s.writer == Some(o);
    hide RecsOk, SocketsOk, Next;
    CalmKeepsInv(s, s', o, s.next);
  }

  lemma ReleaseReadKeepsInv(s: Sys, o: nat)
    requires SysInv(s) && o < |s.calls| && (s.calls[o].pc.DoneReading? || s.calls[o].pc.Captured?)
    ensures SysInv(Next(s, Release(o)))
  {
    assert CallOk(s, s.calls[o]) && s.next !in s.running;
    var s' := Next(s, Release(o));
    assert s' == At(s, o, s'.calls[o].pc).(readers := s.readers - {o});
    assert CallOk(s', s'.calls[o]);
    assert !HoldsRead(s'.calls[o]) && !HoldsWrite(s'.calls[o]) && HoldsRead(s.calls[o]);
    assert o in s.readers && s.writer.None?;
    assert forall n :: !Creates(s'.calls[o], n);
    hide RecsOk, SocketsOk, Next, CallOk, HoldsRead, HoldsWrite;
    CalmKeepsInv(s, s', o, s.next);
  }

  lemma ReleaseKeepsInv(s: Sys, o: nat)
    requires SysInv(s) && Enabled(s, Release(o))
    ensures SysInv(Next(s, Release(o)))
  {
    hide SysInv, Next;
    if s.calls[o].pc.DoneWriting? { ReleaseWriteKeepsInv(s, o); } else { ReleaseReadKeepsInv(s, o); }
  }

  lemma ReleaseKeepsStatus(s: Sys, o: nat)
    requires SysInv(s) && Enabled(s, Release(o))
    ensures var s' := Next(s, Release(o)); o < |s'.calls| && StatusOf(s', s'.calls[o]) == StatusOf(s, s.calls[o])
  {
    assert CallOk(s, s.calls[o]);
    hide LockOk, RecsOk, SocketsOk;
  }

  lemma ReleaseView(s: Sys, o: nat)
    requires SysInv(s) && Enabled(s, Release(o))
    ensures AtomicOf(Next(s, Release(o))) == AtomicOf(s)
  {
    var s' := Next(s, Release(o));
    assert RecsOk(s) && s.next !in s.running && Calm(s, s', o, s.next);
    hide SysInv, StatusOf, Next, Enabled, Calm;
    ReleaseKeepsStatus(s, o);
    CalmView(s, s', o, s.next);
    DeadAlready(s, s.next);
    SameStatuses(s, o);
  }

  lemma ReleaseSimulated(s: Sys, o: nat)
    requires SysInv(s) && Enabled(s, Release(o))
    ensures Simulated(s, Release(o))
  {
    hide SysInv, Next;
    ReleaseKeepsInv(s, o);
    ReleaseView(s, o);
    AcceptNothing(AtomicOf(s));
  }

  lemma RespondKeepsInv(s: Sys, o: nat)
    requires SysInv(s) && Enabled(s, Respond(o))
    ensures SysInv(Next(s, Respond(o)))
  {
    assert CallOk(s, s.calls[o]) && s.next !in s.running;
    hide RecsOk, SocketsOk;
    CalmKeepsInv(s, Next(s, Respond(o)), o, s.next);
  }

  lemma RespondSimulated(s: Sys, o: nat)
    requires SysInv(s) && Enabled(s, Respond(o))
    ensures Simulated(s, Respond(o))
  {
    RespondKeepsInv(s, o);
    CalmView(s, Next(s, Respond(o)), o, s.next);
    DeadAlready(s, s.next);
    hide SysInv;
    AcceptOne(AtomicOf(s), Res(o, s.calls[o].pc.resp));
  }

  // ------------------------------------------------------------------------- the working steps

  /**
   * A working step that changes nothing but where the call stands, a socket, and at most the life of
   * process `t`.
   */
  ghost predicate Local(s: Sys, s': Sys, o: nat, t: nat) {
    && Calm(s, s', o, t) && GoesOn(s, s', o)
    && s'.writer == s.writer && s'.readers == s.readers
    && CallOk(s', s'.calls[o])
    && (HoldsWrite(s'.calls[o]) <==> HoldsWrite(s.calls[o]))
    && (HoldsRead(s'.calls[o]) <==> HoldsRead(s.calls[o]))
  }

  /** The call goes on at `pc`, and nothing else changes. */
  lemma AtIsLocal(s: Sys, o: nat, pc: Pc)
    requires RecsOk(s) && o < |s.calls|
    requires var c, c' := s.calls[o], s.calls[o].(pc := pc);
      && CallOk(At(s, o, pc), c')
      && (HoldsWrite(c') <==> HoldsWrite(c)) && (HoldsRead(c') <==> HoldsRead(c))
      && forall n :: !Creates(c', n) && !Creates(c, n)
    ensures Local(s, At(s, o, pc), o, s.next)
  {
    assert s.next !in s.running;
    hide CallOk, HoldsWrite, HoldsRead, Creates;
  }

  lemma LocalKeepsInv(s: Sys, s': Sys, o: nat, t: nat)
    requires SysInv(s) && Local(s, s', o, t)
    ensures SysInv(s')
  {
    hide RecsOk, SocketsOk, CallOk, GoesOn, HoldsWrite, HoldsRead, Calm;
    assert o < |s.calls| by { CalmIsEvolution(s, s', o, t); }
    CalmKeepsInv(s, s', o, t);
  }

  lemma LocalSimulated(s: Sys, e: Step, t: nat)
    requires SysInv(s) && e.Work? && Enabled(s, e) && Local(s, Next(s, e), e.o, t)
    requires var s' := Next(s, e);
      AcceptAll(AtomicOf(s), EventsOf(s, e)) == Some(Atomic(AbsWithout(s, t), Statuses(s)[e.o := StatusOf(s', s'.calls[e.o])]))
    ensures Simulated(s, e)
  {
    hide Next, EventsOf, Enabled, CallOk, GoesOn, LockOk, SocketsOk, AcceptAll, StatusOf, AbsWithout;
    LocalKeepsInv(s, Next(s, e), e.o, t);
    CalmView(s, Next(s, e), e.o, t);
  }

  /** No event, and the call's status is the same. */
  lemma SilentSimulated(s: Sys, e: Step)
    requires SysInv(s) && e.Work? && Enabled(s, e) && Local(s, Next(s, e), e.o, s.next)
    requires EventsOf(s, e) == [] && StatusOf(Next(s, e), Next(s, e).calls[e.o]) == StatusOf(s, s.calls[e.o])
    ensures Simulated(s, e)
  {
    AcceptNothing(AtomicOf(s));
    SameStatuses(s, e.o);
    assert s.next !in s.running;
    DeadAlready(s, s.next);
    hide *;
    LocalSimulated(s, e, s.next);
  }

  /** The call answers `r`, which changes no VM. */
  lemma AnswerSimulated(s: Sys, e: Step, r: Resp)
    requires SysInv(s) && e.Work? && Enabled(s, e) && Local(s, Next(s, e), e.o, s.next)
    requires EventsOf(s, e) == [Lin(e.o, r)] && StatusOf(s, s.calls[e.o]) == Pending(s.calls[e.o].op)
    requires Effect(Abs(s), s.calls[e.o].op, r) == Some(Abs(s))
    requires StatusOf(Next(s, e), Next(s, e).calls[e.o]) == Effective(s.calls[e.o].op, r)
    ensures Simulated(s, e)
  {
    LinAccepted(s, e.o, r);
    assert s.next !in s.running;
    DeadAlready(s, s.next);
    hide *;
    LocalSimulated(s, e, s.next);
  }

  /** Process `t` ends, and the call's status is the same. */
  lemma DeathSimulated(s: Sys, e: Step, t: nat)
    requires SysInv(s) && e.Work? && Enabled(s, e) && Local(s, Next(s, e), e.o, t)
    requires EventsOf(s, e) == DeathOf(s, t) && StatusOf(Next(s, e), Next(s, e).calls[e.o]) == StatusOf(s, s.calls[e.o])
    ensures Simulated(s, e)
  {
    DeathAccepted(s, t);
    SameStatuses(s, e.o);
    hide *;
    LocalSimulated(s, e, t);
  }

  lemma LookupAnswers(s: Sys, o: nat, ok: bool, r: Resp)
    requires o < |s.calls|
    requires WorkLocked(s, o, ok).calls[o].pc == DoneWriting(r) || WorkLocked(s, o, ok).calls[o].pc == DoneReading(r)
    ensures WorkLocked(s, o, ok) == At(s, o, WorkLocked(s, o, ok).calls[o].pc)
    ensures Effect(Abs(s), s.calls[o].op, r) == Some(Abs(s))
    ensures s.calls[o].op.OpStop? ==> r == NotFound
    ensures WorkLocked(s, o, ok).calls[o].pc.DoneWriting? <==> s.calls[o].op.OpCreate? || s.calls[o].op.OpDelete?
  {
  }

  lemma LookupEndsLocal(s: Sys, o: nat, ok: bool, obeys: bool, r: Resp)
    requires SysInv(s) && Enabled(s, Work(o, ok, obeys)) && s.calls[o].pc.Locked?
    requires WorkLocked(s, o, ok).calls[o].pc == DoneWriting(r) || WorkLocked(s, o, ok).calls[o].pc == DoneReading(r)
    ensures Local(s, Next(s, Work(o, ok, obeys)), o, s.next)
  {
    LookupAnswers(s, o, ok, r);
    var pc := WorkLocked(s, o, ok).calls[o].pc;
    assert Next(s, Work(o, ok, obeys)) == At(s, o, pc) && RecsOk(s);
    hide SysInv, RecsOk, SocketsOk, LockOk, WorkLocked, Effect, Abs, Next, Enabled, Local;
    AtIsLocal(s, o, pc);
  }

  lemma LookupFindsLocal(s: Sys, o: nat, ok: bool, obeys: bool)
    requires SysInv(s) && Enabled(s, Work(o, ok, obeys)) && s.calls[o].pc.Locked?
    requires !s.calls[o].op.OpCreate? && s.calls[o].op.id in s.vms
    ensures Local(s, Next(s, Work(o, ok, obeys)), o, s.next)
  {
    var s', c := Next(s, Work(o, ok, obeys)), s.calls[o];
    assert InMap(s, c.op.id, s.vms[c.op.id]);
    assert s.next !in s.running;
    assert s' == s.(calls := s.calls[o := Call(c.op, s'.calls[o].pc, Some(s.vms[c.op.id]))]);
    assert CallOk(s', s'.calls[o]);
    assert HoldsWrite(s'.calls[o]) <==> HoldsWrite(c);
    assert HoldsRead(s'.calls[o]) <==> HoldsRead(c);
    assert forall n :: !Creates(s'.calls[o], n);
    hide SysInv, Next, CallOk, HoldsWrite, HoldsRead, Enabled;
  }

  /** A lookup that ends the call: the answer takes effect at once. */
  lemma LookupEndsSimulated(s: Sys, o: nat, ok: bool, obeys: bool, r: Resp)
    requires SysInv(s) && Enabled(s, Work(o, ok, obeys)) && s.calls[o].pc.Locked?
    requires WorkLocked(s, o, ok).calls[o].pc == DoneWriting(r) || WorkLocked(s, o, ok).calls[o].pc == DoneReading(r)
    ensures Simulated(s, Work(o, ok, obeys))
  {
    LookupAnswers(s, o, ok, r);
    LookupEndsLocal(s, o, ok, obeys, r);
    hide WorkLocked, Effect, Registered, Abs, SysInv, Local, Simulated;
    AnswerSimulated(s, Work(o, ok, obeys), r);
  }

  lemma LookupFindsSimulated(s: Sys, o: nat, ok: bool, obeys: bool)
    requires SysInv(s) && Enabled(s, Work(o, ok, obeys)) && s.calls[o].pc.Locked?
    requires !s.calls[o].op.OpCreate? && s.calls[o].op.id in s.vms
    ensures Simulated(s, Work(o, ok, obeys))
  {
    assert InMap(s, s.calls[o].op.id, s.vms[s.calls[o].op.id]);
    LookupFindsLocal(s, o, ok, obeys);
    hide SysInv, Local, Simulated;
    SilentSimulated(s, Work(o, ok, obeys));
  }

  lemma LookupSimulated(s: Sys, o: nat, ok: bool, obeys: bool)
    requires SysInv(s) && Enabled(s, Work(o, ok, obeys)) && s.calls[o].pc.Locked?
    requires !(s.calls[o].op.OpCreate? && s.calls[o].op.id !in s.vms && ok)
    ensures Simulated(s, Work(o, ok, obeys))
  {
    hide SysInv, Simulated;
    match WorkLocked(s, o, ok).calls[o].pc {
      case DoneWriting(r) => LookupEndsSimulated(s, o, ok, obeys, r);
      case DoneReading(r) => LookupEndsSimulated(s, o, ok, obeys, r);
      case _ => LookupFindsSimulated(s, o, ok, obeys);
    }
  }

  // ------------------------------------------------------------------------------- creating

  lemma SpawnKeepsSockets(s: Sys, o: nat, obeys: bool)
    requires SysInv(s) && Enabled(s, Work(o, true, obeys)) && s.calls[o].pc.Locked?
    requires s.calls[o].op.OpCreate? && s.calls[o].op.id !in s.vms
    ensures SocketsOk(Next(s, Work(o, true, obeys)))
  {
    var s' := Next(s, Work(o, true, obeys));
    assert s.writer == Some(o);
    forall id | id in s'.sockets ensures SocketOk(s', id) {
      if id != s.calls[o].op.id { assert SocketOk(s, id); }
      forall i, n | 0 <= i < |s.calls| && s'.calls[i].op == OpCreate(id) && Creates(s'.calls[i], n)
        ensures s'.sockets[id] == n
      {
        var c := s'.calls[i];
        assert HoldsWrite(c) && (c == s.calls[i] || i == o);
      }
    }
  }

  lemma SpawnKeepsInv(s: Sys, o: nat, obeys: bool)
    requires SysInv(s) && Enabled(s, Work(o, true, obeys)) && s.calls[o].pc.Locked?
    requires s.calls[o].op.OpCreate? && s.calls[o].op.id !in s.vms
    ensures SysInv(Next(s, Work(o, true, obeys)))
  {
    var s' := Next(s, Work(o, true, obeys));
    SpawnKeepsSockets(s, o, obeys);
    assert RecsOk(s') && CallOk(s', s'.calls[o]);
    assert Evolves(s, s', o);
    hide SocketsOk, RecsOk, CallOk, Evolves;
    CallsKept(s, s', o);
  }

  lemma SpawnView(s: Sys, o: nat, obeys: bool)
    requires SysInv(s) && Enabled(s, Work(o, true, obeys)) && s.calls[o].pc.Locked?
    requires s.calls[o].op.OpCreate? && s.calls[o].op.id !in s.vms
    ensures AtomicOf(Next(s, Work(o, true, obeys))) == AtomicOf(s)
  {
    var s' := Next(s, Work(o, true, obeys));
    assert Abs(s') == Abs(s) by {
      forall id | id in s.vms ensures s.vms[id] != s.next { assert InMap(s, id, s.vms[id]); }
    }
    hide SysInv, Abs;
    OtherStatuses(s, s', o);
    SameStatuses(s, o);
  }

  lemma SpawnSimulated(s: Sys, o: nat, obeys: bool)
    requires SysInv(s) && Enabled(s, Work(o, true, obeys)) && s.calls[o].pc.Locked?
    requires s.calls[o].op.OpCreate? && s.calls[o].op.id !in s.vms
    ensures Simulated(s, Work(o, true, obeys))
  {
    SpawnKeepsInv(s, o, obeys);
    SpawnView(s, o, obeys);
    hide SysInv, Next;
    AcceptNothing(AtomicOf(s));
  }

  lemma ConnectSimulated(s: Sys, o: nat, obeys: bool)
    requires SysInv(s) && Enabled(s, Work(o, true, obeys)) && s.calls[o].pc.Spawned?
    ensures Simulated(s, Work(o, true, obeys))
  {
    assert CallOk(s, s.calls[o]);
    assert s.next !in s.running;
    hide SysInv;
    SilentSimulated(s, Work(o, true, obeys));
  }

  lemma CommitKeepsSockets(s: Sys, o: nat, obeys: bool)
    requires SysInv(s) && Enabled(s, Work(o, true, obeys)) && s.calls[o].pc.Configuring?
    ensures SocketsOk(Next(s, Work(o, true, obeys)))
  {
    var s' := Next(s, Work(o, true, obeys));
    assert CallOk(s, s.calls[o]);
    forall id | id in s'.sockets ensures SocketOk(s', id) {
      assert SocketOk(s, id);
      assert Creates(s.calls[o], s.calls[o].pc.pid);
    }
  }

  lemma CommitKeepsRecs(s: Sys, o: nat, obeys: bool)
    requires SysInv(s) && Enabled(s, Work(o, true, obeys)) && s.calls[o].pc.Configuring?
    ensures RecsOk(Next(s, Work(o, true, obeys)))
  {
    assert CallOk(s, s.calls[o]);
    hide SocketsOk;
  }

  lemma CommitKeepsInv(s: Sys, o: nat, obeys: bool)
    requires SysInv(s) && Enabled(s, Work(o, true, obeys)) && s.calls[o].pc.Configuring?
    ensures SysInv(Next(s, Work(o, true, obeys)))
  {
    var s' := Next(s, Work(o, true, obeys));
    CommitKeepsSockets(s, o, obeys);
    CommitKeepsRecs(s, o, obeys);
    assert CallOk(s, s.calls[o]);
    hide SocketsOk, RecsOk;
    CallsKept(s, s', o);
  }

  lemma CommitView(s: Sys, o: nat, obeys: bool)
    requires SysInv(s) && Enabled(s, Work(o, true, obeys)) && s.calls[o].pc.Configuring?
    ensures var c := s.calls[o];
      && c.op.OpCreate? && c.op.id !in s.vms
      && AtomicOf(Next(s, Work(o, true, obeys))) ==
           Atomic(Abs(s)[c.op.id := c.pc.pid in s.running], Statuses(s)[o := Effective(c.op, Ok)])
  {
    var s', c := Next(s, Work(o, true, obeys)), s.calls[o];
    assert CallOk(s, c);
    assert Abs(s') == Abs(s)[c.op.id := c.pc.pid in s.running];
    OtherStatuses(s, s', o);
  }

  /** An instance that died before the commit makes two events: the creation, and the death. */
  lemma CommitAccepted(s: Sys, o: nat, alive: bool)
    requires o < |s.calls| && s.calls[o].op.OpCreate? && s.calls[o].op.id !in s.vms
    requires StatusOf(s, s.calls[o]) == Pending(s.calls[o].op)
    ensures var c := s.calls[o];
      AcceptAll(AtomicOf(s), if alive then [Lin(o, Ok)] else [Lin(o, Ok), Died(c.op.id)]) ==
        Some(Atomic(Abs(s)[c.op.id := alive], Statuses(s)[o := Effective(c.op, Ok)]))
  {
    var c := s.calls[o];
    LinAccepted(s, o, Ok);
    if !alive {
      var q := Atomic(Abs(s)[c.op.id := true], Statuses(s)[o := Effective(c.op, Ok)]);
      hide Abs, StatusOf;
      assert [Lin(o, Ok), Died(c.op.id)] == [Lin(o, Ok)] + [Died(c.op.id)];
      AcceptAppend(AtomicOf(s), [Lin(o, Ok)], [Died(c.op.id)]);
      AcceptOne(q, Died(c.op.id));
      assert Abs(s)[c.op.id := true][c.op.id := false] == Abs(s)[c.op.id := false];
    }
  }

  lemma CommitSimulated(s: Sys, o: nat, obeys: bool)
    requires SysInv(s) && Enabled(s, Work(o, true, obeys)) && s.calls[o].pc.Configuring?
    ensures Simulated(s, Work(o, true, obeys))
  {
    CommitKeepsInv(s, o, obeys);
    CommitView(s, o, obeys);
    hide SysInv, Next;
    CommitAccepted(s, o, s.calls[o].pc.pid in s.running);
  }

  lemma AbortLocal(s: Sys, o: nat, obeys: bool)
    requires SysInv(s) && Enabled(s, Work(o, false, obeys)) && (s.calls[o].pc.Spawned? || s.calls[o].pc.Configuring?)
    ensures Local(s, Next(s, Work(o, false, obeys)), o, s.calls[o].pc.pid)
  {
    assert CallOk(s, s.calls[o]);
    assert Next(s, Work(o, false, obeys)) == RolledBack(s, o, s.calls[o].pc.pid, obeys);
    hide SysInv, Next, Enabled;
  }

  lemma AbortSimulated(s: Sys, o: nat, obeys: bool)
    requires SysInv(s) && Enabled(s, Work(o, false, obeys)) && (s.calls[o].pc.Spawned? || s.calls[o].pc.Configuring?)
    ensures Simulated(s, Work(o, false, obeys))
  {
    var e, c := Work(o, false, obeys), s.calls[o];
    var n := c.pc.pid;
    assert CallOk(s, c) && n !in s.recs;
    AbortLocal(s, o, obeys);
    LinAccepted(s, o, CreateFailed);
    hide SysInv, Local, Simulated;
    LocalSimulated(s, e, n);
  }

  // ------------------------------------------------------------------------------- deleting

  lemma KillingSimulated(s: Sys, o: nat, ok: bool, obeys: bool)
    requires SysInv(s) && Enabled(s, Work(o, ok, obeys)) && s.calls[o].pc.Killing?
    ensures Simulated(s, Work(o, ok, obeys))
  {
    assert CallOk(s, s.calls[o]);
    hide SysInv;
    DeathSimulated(s, Work(o, ok, obeys), s.calls[o].pc.pid);
  }

  /** The statuses once the first `k` calls waiting on `n` have been helped. */
  function HelpedStatuses(s: Sys, n: nat, k: nat): seq<Status>
    requires k <= |s.calls|
  {
    seq(|s.calls|, i requires 0 <= i < |s.calls| =>
      if i < k && Awaits(s.calls[i], n) then Effective(s.calls[i].op, LateAnswer(s.calls[i].op))
      else StatusOf(s, s.calls[i]))
  }

  /** One more call is helped. It changes no VM: the process is dead already. */
  lemma HelpOne(s: Sys, n: nat, k: nat)
    requires SysInv(s) && Registered(s, n) && n !in s.running && k < |s.calls| && Awaits(s.calls[k], n)
    ensures Accept(Atomic(Abs(s), HelpedStatuses(s, n, k)), Lin(k, LateAnswer(s.calls[k].op)))
      == Some(Atomic(Abs(s), HelpedStatuses(s, n, k + 1)))
  {
    var c := s.calls[k];
    assert CallOk(s, c);
    hide SysInv;
    assert Abs(s)[s.recs[n].id := false] == Abs(s);
    assert HelpedStatuses(s, n, k + 1) == HelpedStatuses(s, n, k)[k := Effective(c.op, LateAnswer(c.op))];
  }

  lemma HelpNext(s: Sys, n: nat, k: nat)
    requires SysInv(s) && Registered(s, n) && n !in s.running && k < |s.calls|
    requires AcceptAll(AtomicOf(s), Helped(s, n, k)) == Some(Atomic(Abs(s), HelpedStatuses(s, n, k)))
    ensures AcceptAll(AtomicOf(s), Helped(s, n, k + 1)) == Some(Atomic(Abs(s), HelpedStatuses(s, n, k + 1)))
  {
    var q := Atomic(Abs(s), HelpedStatuses(s, n, k));
    if Awaits(s.calls[k], n) {
      var ev := Lin(k, LateAnswer(s.calls[k].op));
      HelpOne(s, n, k);
      hide SysInv, Accept, AcceptAll, HelpedStatuses, AtomicOf, Abs, LateAnswer, Awaits;
      AcceptAppend(AtomicOf(s), Helped(s, n, k), [ev]);
      AcceptOne(q, ev);
    } else {
      hide SysInv, Accept, AcceptAll, StatusOf, Awaits, Abs;
      assert Helped(s, n, k + 1) == Helped(s, n, k);
      assert HelpedStatuses(s, n, k + 1) == HelpedStatuses(s, n, k);
    }
  }

  lemma HelpNone(s: Sys, n: nat)
    ensures AcceptAll(AtomicOf(s), Helped(s, n, 0)) == Some(Atomic(Abs(s), HelpedStatuses(s, n, 0)))
  {
    AcceptNothing(AtomicOf(s));
    hide StatusOf, Abs, Awaits;
    assert HelpedStatuses(s, n, 0) == Statuses(s);
  }

  lemma {:induction false} HelpingAccepted(s: Sys, n: nat, k: nat)
    requires SysInv(s) && Registered(s, n) && n !in s.running && k <= |s.calls|
    ensures AcceptAll(AtomicOf(s), Helped(s, n, k)) == Some(Atomic(Abs(s), HelpedStatuses(s, n, k)))
  {
    hide *;
    if k == 0 {
      HelpNone(s, n);
    } else {
      HelpingAccepted(s, n, k - 1);
      HelpNext(s, n, k - 1);
    }
  }

  lemma RemovingView(s: Sys, o: nat, ok: bool, obeys: bool)
    requires SysInv(s) && Enabled(s, Work(o, ok, obeys)) && s.calls[o].pc.Removing?
    ensures var s', c := Next(s, Work(o, ok, obeys)), s.calls[o];
      && Abs(s') == Abs(s) - {c.op.id}
      && Statuses(s') == HelpedStatuses(s, c.pc.pid, |s.calls|)[o := Effective(c.op, Ok)]
  {
    var s', c := Next(s, Work(o, ok, obeys)), s.calls[o];
    assert CallOk(s, c);
    var n := c.pc.pid;
    forall i | 0 <= i < |s.calls| && i != o
      ensures StatusOf(s', s'.calls[i]) == HelpedStatuses(s, n, |s.calls|)[i]
    {
      assert CallOk(s, s.calls[i]);
      if !Awaits(s.calls[i], n) {
        forall m | m != n && m in s.recs ensures Registered(s', m) <==> Registered(s, m) {}
      }
    }
  }

  lemma RemovingSimulated(s: Sys, o: nat, ok: bool, obeys: bool)
    requires SysInv(s) && Enabled(s, Work(o, ok, obeys)) && s.calls[o].pc.Removing?
    ensures Simulated(s, Work(o, ok, obeys))
  {
    var s', c := Next(s, Work(o, ok, obeys)), s.calls[o];
    assert CallOk(s, c);
    var n := c.pc.pid;
    HelpingAccepted(s, n, |s.calls|);
    var q := Atomic(Abs(s), HelpedStatuses(s, n, |s.calls|));
    AcceptAppend(AtomicOf(s), Helped(s, n, |s.calls|), [Lin(o, Ok)]);
    AcceptOne(q, Lin(o, Ok));
    RemovingView(s, o, ok, obeys);
    RemovingKeepsInv(s, o, ok, obeys);
  }

  lemma RemovingKeepsInv(s: Sys, o: nat, ok: bool, obeys: bool)
    requires SysInv(s) && Enabled(s, Work(o, ok, obeys)) && s.calls[o].pc.Removing?
    ensures SysInv(Next(s, Work(o, ok, obeys)))
  {
    var s' := Next(s, Work(o, ok, obeys));
    assert CallOk(s, s.calls[o]);
    assert SocketsOk(s') by {
      forall id | id in s'.sockets ensures SocketOk(s', id) { assert SocketOk(s, id); }
    }
    hide SocketsOk;
    assert RecsOk(s');
    CallsKept(s, s', o);
  }

  // --------------------------------------------------------------------- asking, starting, stopping

  /** Where a read or a start goes in a step, when it changes nothing else. */
  lemma LookLocal(s: Sys, o: nat, ok: bool, obeys: bool)
    requires SysInv(s) && Enabled(s, Work(o, ok, obeys))
    requires s.calls[o].pc.Probing? || s.calls[o].pc.Reading? || s.calls[o].pc.Checking?
    ensures Local(s, Next(s, Work(o, ok, obeys)), o, s.next)
  {
    var s' := Next(s, Work(o, ok, obeys));
    assert CallOk(s, s.calls[o]);
    assert s' == At(s, o, s'.calls[o].pc) && CallOk(s', s'.calls[o]);
    assert HoldsWrite(s'.calls[o]) <==> HoldsWrite(s.calls[o]);
    assert HoldsRead(s'.calls[o]) <==> HoldsRead(s.calls[o]);
    assert forall n :: !Creates(s'.calls[o], n) && !Creates(s.calls[o], n);
    hide RecsOk, SocketsOk, LockOk, Next, Enabled, Local, CallOk, HoldsWrite, HoldsRead, Creates;
    AtIsLocal(s, o, s'.calls[o].pc);
  }

  lemma ProbingSimulated(s: Sys, o: nat, ok: bool, obeys: bool)
    requires SysInv(s) && Enabled(s, Work(o, ok, obeys)) && s.calls[o].pc.Probing?
    ensures Simulated(s, Work(o, ok, obeys))
  {
    LookLocal(s, o, ok, obeys);
    assert CallOk(s, s.calls[o]);
    hide SysInv, Local, Simulated;
    AnswerSimulated(s, Work(o, ok, obeys), Reports(s.calls[o].pc.pid in s.running));
  }

  lemma ReadingSimulated(s: Sys, o: nat, ok: bool, obeys: bool)
    requires SysInv(s) && Enabled(s, Work(o, ok, obeys)) && s.calls[o].pc.Reading?
    ensures Simulated(s, Work(o, ok, obeys))
  {
    LookLocal(s, o, ok, obeys);
    assert CallOk(s, s.calls[o]);
    hide SysInv, Local, Simulated;
    SilentSimulated(s, Work(o, ok, obeys));
  }

  lemma CheckingSimulated(s: Sys, o: nat, ok: bool, obeys: bool)
    requires SysInv(s) && Enabled(s, Work(o, ok, obeys)) && s.calls[o].pc.Checking?
    ensures Simulated(s, Work(o, ok, obeys))
  {
    var n := s.calls[o].pc.pid;
    LookLocal(s, o, ok, obeys);
    assert CallOk(s, s.calls[o]);
    assert n in s.running ==> Registered(s, n);
    hide SysInv, Local, Simulated;
    if Registered(s, n) {
      AnswerSimulated(s, Work(o, ok, obeys), if n in s.running then Ok else CannotRestart);
    } else {
      SilentSimulated(s, Work(o, ok, obeys));
    }
  }

  /** The process that ends in a stop's step, or one there is not yet. */
  function EndedBy(s: Sys, o: nat, obeys: bool): nat
    requires o < |s.calls|
  {
    var c := s.calls[o];
    match c.pc
    case Asking(n) =>
      var reached := Reached(s, c.op.id, n);
      if obeys && reached.Some? then reached.value else s.next
    case Terming(n) => if n in s.running && !obeys then s.next else n
    case Finishing(n) => n
    case Ending(n) => n
    case _ => s.next
  }

  predicate StopsAt(c: Call) {
    c.pc.Asking? || c.pc.Terming? || c.pc.Reaping? || c.pc.Finishing? || c.pc.Ending? || c.pc.Unlinking?
  }

  lemma StopShape(s: Sys, o: nat, ok: bool, obeys: bool)
    requires SysInv(s) && Enabled(s, Work(o, ok, obeys)) && StopsAt(s.calls[o])
    ensures var s', pc := Next(s, Work(o, ok, obeys)), s.calls[o].pc;
      && s' == s.(running := s'.running, sockets := s'.sockets, calls := s.calls[o := s.calls[o].(pc := s'.calls[o].pc)])
      && s'.running == s.running - {EndedBy(s, o, obeys)}
      && (s'.sockets == s.sockets || s'.sockets == s.sockets - {s.calls[o].op.id})
      && s'.calls[o].pc == match pc
         case Asking(n) => if ok then Terming(n) else Ending(n)
         case Terming(n) => if n in s.running then Reaping(n) else Unlinking(n)
         case Reaping(n) => if n in s.running then Finishing(n) else Unlinking(n)
         case Ending(n) => if n in s.running then Unlinking(n) else Marking(n)
         case Finishing(n) => Unlinking(n)
         case Unlinking(n) => Marking(n)
         case _ => pc
  {
    assert s.next !in s.running;
    hide SysInv;
  }

  lemma StopKeepsCallOk(s: Sys, o: nat, ok: bool, obeys: bool)
    requires SysInv(s) && Enabled(s, Work(o, ok, obeys)) && StopsAt(s.calls[o])
    ensures var s' := Next(s, Work(o, ok, obeys)); o < |s'.calls| && CallOk(s', s'.calls[o])
  {
    StopShape(s, o, ok, obeys);
    assert CallOk(s, s.calls[o]);
    hide RecsOk, SocketsOk, LockOk, Next, Enabled;
  }

  lemma StopLocal(s: Sys, o: nat, ok: bool, obeys: bool)
    requires SysInv(s) && Enabled(s, Work(o, ok, obeys)) && StopsAt(s.calls[o])
    ensures Local(s, Next(s, Work(o, ok, obeys)), o, EndedBy(s, o, obeys))
  {
    assert o < |s.calls|;
    hide SysInv, Next, Enabled, EndedBy, CallOk;
    var s' := Next(s, Work(o, ok, obeys));
    StopShape(s, o, ok, obeys);
    StopKeepsCallOk(s, o, ok, obeys);
    assert forall n :: !Creates(s'.calls[o], n) && !Creates(s.calls[o], n);
  }

  lemma AskingSimulated(s: Sys, o: nat, ok: bool, obeys: bool)
    requires SysInv(s) && Enabled(s, Work(o, ok, obeys)) && s.calls[o].pc.Asking?
    ensures Simulated(s, Work(o, ok, obeys))
  {
    StopShape(s, o, ok, obeys);
    StopLocal(s, o, ok, obeys);
    assert s.next !in s.running;
    hide SysInv, Local, Simulated, Next, Reached, Enabled;
    if EndedBy(s, o, obeys) == s.next {
      SilentSimulated(s, Work(o, ok, obeys));
    } else {
      DeathSimulated(s, Work(o, ok, obeys), EndedBy(s, o, obeys));
    }
  }

  /** The stop takes effect now, or did when its record was removed. */
  lemma StopEffectAccepted(s: Sys, o: nat, n: nat)
    requires SysInv(s) && o < |s.calls| && s.calls[o].op.OpStop? && Awaits(s.calls[o], n) && !s.calls[o].pc.Captured?
    ensures AcceptAll(AtomicOf(s), StopTakesEffect(s, o, n)) ==
      Some(Atomic(AbsWithout(s, n), Statuses(s)[o := Effective(s.calls[o].op, Ok)]))
  {
    assert CallOk(s, s.calls[o]);
    if Registered(s, n) {
      LinAccepted(s, o, Ok);
    } else {
      AcceptNothing(AtomicOf(s));
      SameStatuses(s, o);
    }
  }

  /** The steps after which the process a stop found is dead, and the stop has taken effect. */
  lemma StopEndsSimulated(s: Sys, o: nat, ok: bool, obeys: bool)
    requires SysInv(s) && Enabled(s, Work(o, ok, obeys))
    requires var pc := s.calls[o].pc;
      pc.Finishing? || pc.Ending? || ((pc.Terming? || pc.Reaping?) && pc.pid !in s.running)
    ensures Simulated(s, Work(o, ok, obeys))
  {
    var n := s.calls[o].pc.pid;
    StopShape(s, o, ok, obeys);
    StopLocal(s, o, ok, obeys);
    StopEffectAccepted(s, o, n);
    assert CallOk(s, s.calls[o]) && s.next !in s.running;
    if s.calls[o].pc.Reaping? { DeadAlready(s, n); DeadAlready(s, s.next); }
    hide SysInv, AbsWithout, Statuses, Accept, AcceptAll, StopTakesEffect, Local, Simulated, Next, Enabled;
    LocalSimulated(s, Work(o, ok, obeys), EndedBy(s, o, obeys));
  }

  lemma StopWaitsSimulated(s: Sys, o: nat, ok: bool, obeys: bool)
    requires SysInv(s) && Enabled(s, Work(o, ok, obeys))
    requires s.calls[o].pc.Unlinking? || ((s.calls[o].pc.Terming? || s.calls[o].pc.Reaping?) && s.calls[o].pc.pid in s.running)
    ensures Simulated(s, Work(o, ok, obeys))
  {
    StopShape(s, o, ok, obeys);
    StopLocal(s, o, ok, obeys);
    assert CallOk(s, s.calls[o]);
    hide SysInv, Local, Simulated, Next, Enabled;
    if s.calls[o].pc.Terming? && obeys {
      DeathSimulated(s, Work(o, ok, obeys), s.calls[o].pc.pid);
    } else {
      SilentSimulated(s, Work(o, ok, obeys));
    }
  }

  lemma MarkKeepsInv(s: Sys, o: nat, ok: bool, obeys: bool)
    requires SysInv(s) && Enabled(s, Work(o, ok, obeys)) && s.calls[o].pc.MarkLocked?
    ensures SysInv(Next(s, Work(o, ok, obeys)))
  {
    var s' := Next(s, Work(o, ok, obeys));
    assert CallOk(s, s.calls[o]);
    SocketsKept(s, s', o);
    hide SocketsOk;
    assert RecsOk(s');
    CallsKept(s, s', o);
  }

  lemma MarkSimulated(s: Sys, o: nat, ok: bool, obeys: bool)
    requires SysInv(s) && Enabled(s, Work(o, ok, obeys)) && s.calls[o].pc.MarkLocked?
    ensures Simulated(s, Work(o, ok, obeys))
  {
    var s' := Next(s, Work(o, ok, obeys));
    MarkKeepsInv(s, o, ok, obeys);
    hide SysInv;
    AcceptNothing(AtomicOf(s));
    SameStatuses(s, o);
    OtherStatuses(s, s', o);
    assert Abs(s') == Abs(s);
  }

  lemma CreateStepSimulated(s: Sys, o: nat, ok: bool, obeys: bool)
    requires SysInv(s) && Enabled(s, Work(o, ok, obeys)) && (s.calls[o].pc.Spawned? || s.calls[o].pc.Configuring?)
    ensures Simulated(s, Work(o, ok, obeys))
  {
    hide Simulated, SysInv;
    if !ok { AbortSimulated(s, o, obeys); }
    else if s.calls[o].pc.Spawned? { ConnectSimulated(s, o, obeys); }
    else { CommitSimulated(s, o, obeys); }
  }

  lemma StopStepSimulated(s: Sys, o: nat, ok: bool, obeys: bool)
    requires SysInv(s) && Enabled(s, Work(o, ok, obeys)) && StopsAt(s.calls[o])
    ensures Simulated(s, Work(o, ok, obeys))
  {
    hide Simulated, SysInv;
    var pc := s.calls[o].pc;
    if pc.Asking? { AskingSimulated(s, o, ok, obeys); }
    else if pc.Unlinking? || ((pc.Terming? || pc.Reaping?) && pc.pid in s.running) { StopWaitsSimulated(s, o, ok, obeys); }
    else { StopEndsSimulated(s, o, ok, obeys); }
  }

  lemma StepSimulated(s: Sys, e: Step)
    requires SysInv(s) && Enabled(s, e)
    ensures Simulated(s, e)
  {
    hide Simulated, SysInv;
    match e {
      case Invoke(op) => InvokeSimulated(s, op);
      case Acquire(o) => AcquireSimulated(s, o);
      case Release(o) => ReleaseSimulated(s, o);
      case Respond(o) => RespondSimulated(s, o);
      case Crash(pid) => CrashSimulated(s, pid);
      case Work(o, ok, obeys) =>
        match s.calls[o].pc {
          case Locked =>
            if s.calls[o].op.OpCreate? && s.calls[o].op.id !in s.vms && ok { SpawnSimulated(s, o, obeys); }
            else { LookupSimulated(s, o, ok, obeys); }
          case Spawned(_) => CreateStepSimulated(s, o, ok, obeys);
          case Configuring(_) => CreateStepSimulated(s, o, ok, obeys);
          case Killing(_) => KillingSimulated(s, o, ok, obeys);
          case Removing(_) => RemovingSimulated(s, o, ok, obeys);
          case Probing(_) => ProbingSimulated(s, o, ok, obeys);
          case Reading(_) => ReadingSimulated(s, o, ok, obeys);
          case Checking(_) => CheckingSimulated(s, o, ok, obeys);
          case MarkLocked(_) => MarkSimulated(s, o, ok, obeys);
          case _ => StopStepSimulated(s, o, ok, obeys);
        }
    }
  }

  // ------------------------------------------------------------------------------- the theorem

  /** The history that explains a run. */
  ghost function History(steps: seq<Step>): seq<Event>
    requires Exec(steps).Some?
  {
    if steps == [] then []
    else History(steps[..|steps| - 1]) + EventsOf(Exec(steps[..|steps| - 1]).value, steps[|steps| - 1])
  }

  lemma StartIsNothing()
    ensures SysInv(START) && AtomicOf(START) == NOTHING
  {
    assert Abs(START) == map[];
  }

  lemma {:induction false} HistoryExplains(steps: seq<Step>)
    requires Exec(steps).Some?
    ensures SysInv(Exec(steps).value)
    ensures AcceptAll(NOTHING, History(steps)) == Some(AtomicOf(Exec(steps).value))
    ensures External(History(steps)) == Trace(steps)
  {
    if steps == [] {
      StartIsNothing();
    } else {
      var init, last := steps[..|steps| - 1], steps[|steps| - 1];
      var s := Exec(init).value;
      HistoryExplains(init);
      StepSimulated(s, last);
      AcceptAppend(NOTHING, History(init), EventsOf(s, last));
      ExternalAppend(History(init), EventsOf(s, last));
      EventsAreShown(s, last);
    }
  }

  // ------------------------------------------------------------------- whose deaths the history has

  function Deaths(h: seq<Event>): multiset<Id> {
    if h == [] then multiset{}
    else
      var last := h[|h| - 1];
      Deaths(h[..|h| - 1]) + if last.Died? then multiset{last.id} else multiset{}
  }

  /** The VMs that are down after a step and were not before: their process ended, or they were created dead. */
  function Fell(before: map<Id, bool>, after: map<Id, bool>): set<Id> {
    set id | id in after && !after[id] && (id in before ==> before[id])
  }

  ghost function Falls(steps: seq<Step>): multiset<Id>
    requires Exec(steps).Some?
  {
    if steps == [] then multiset{}
    else Falls(steps[..|steps| - 1]) + multiset(Fell(Abs(Exec(steps[..|steps| - 1]).value), Abs(Exec(steps).value)))
  }

  lemma {:induction false} DeathsAppend(g: seq<Event>, h: seq<Event>)
    ensures Deaths(g + h) == Deaths(g) + Deaths(h)
    decreases |h|
  {
    if h == [] {
      assert g + h == g;
    } else {
      assert (g + h)[..|g + h| - 1] == g + h[..|h| - 1];
      DeathsAppend(g, h[..|h| - 1]);
    }
  }

  lemma {:induction false} HelpedHasNoDeaths(s: Sys, n: nat, k: nat)
    requires k <= |s.calls|
    ensures Deaths(Helped(s, n, k)) == multiset{}
  {
    if k > 0 {
      HelpedHasNoDeaths(s, n, k - 1);
      if Awaits(s.calls[k - 1], n) {
        var ev := Lin(k - 1, LateAnswer(s.calls[k - 1].op));
        DeathsAppend(Helped(s, n, k - 1), [ev]);
        DeathsOne(ev);
      } else {
        assert Helped(s, n, k) == Helped(s, n, k - 1);
      }
    }
  }

  lemma DeathsOne(ev: Event)
    ensures Deaths([ev]) == if ev.Died? then multiset{ev.id} else multiset{}
  {
    assert [ev][..0] == [];
  }

  /** An instance that was dead when it was registered. */
  predicate BornDead(s: Sys, e: Step)
    requires Enabled(s, e)
  {
    e.Work? && e.ok && s.calls[e.o].pc.Configuring? && s.calls[e.o].pc.pid !in s.running
  }

  /** A step makes at most one death: alone, or right after a creation. */
  lemma EventForms(s: Sys, e: Step)
    requires Enabled(s, e)
    ensures var h := EventsOf(s, e);
      if BornDead(s, e) then h == [Lin(e.o, Ok), Died(s.calls[e.o].op.id)]
      else Deaths(h) == multiset{} || |h| == 1
  {
    if e.Work? && s.calls[e.o].pc.Removing? {
      var helped := Helped(s, s.calls[e.o].pc.pid, |s.calls|);
      HelpedHasNoDeaths(s, s.calls[e.o].pc.pid, |s.calls|);
      hide Helped;
      DeathsAppend(helped, [Lin(e.o, Ok)]);
      DeathsOne(Lin(e.o, Ok));
    }
  }

  lemma LoneDeathFell(q: Atomic, id: Id)
    requires AcceptAll(q, [Died(id)]).Some?
    ensures Deaths([Died(id)]) <= multiset(Fell(q.vms, AcceptAll(q, [Died(id)]).value.vms))
  {
    AcceptOne(q, Died(id));
    DeathsOne(Died(id));
    DiedFell(q, Died(id));
  }

  lemma CreatedDeathFell(q: Atomic, o: nat, id: Id)
    requires AcceptAll(q, [Lin(o, Ok), Died(id)]).Some?
    ensures Deaths([Lin(o, Ok), Died(id)]) <= multiset(Fell(q.vms, AcceptAll(q, [Lin(o, Ok), Died(id)]).value.vms))
  {
    assert [Lin(o, Ok), Died(id)] == [Lin(o, Ok)] + [Died(id)];
    AcceptAppend(q, [Lin(o, Ok)], [Died(id)]);
    AcceptOne(q, Lin(o, Ok));
    AcceptOne(Accept(q, Lin(o, Ok)).value, Died(id));
    DeathsAppend([Lin(o, Ok)], [Died(id)]);
    DeathsOne(Lin(o, Ok));
    DeathsOne(Died(id));
    CreatedFell(q, o, id);
  }

  lemma DeathsAreFalls(s: Sys, e: Step)
    requires Enabled(s, e) && Simulated(s, e)
    ensures Deaths(EventsOf(s, e)) <= multiset(Fell(Abs(s), Abs(Next(s, e))))
  {
    EventForms(s, e);
    var q, h := AtomicOf(s), EventsOf(s, e);
    assert AcceptAll(q, h) == Some(AtomicOf(Next(s, e)));
    hide EventsOf, Next, SysInv, Enabled, Abs, Statuses, AcceptAll, Deaths, Fell;
    if BornDead(s, e) {
      CreatedDeathFell(q, e.o, s.calls[e.o].op.id);
    } else if |h| == 1 {
      assert h == [h[0]];
      DeathsOne(h[0]);
      if h[0].Died? { LoneDeathFell(q, h[0].id); }
    }
  }

  lemma DiedFell(q: Atomic, ev: Event)
    requires ev.Died? && Accept(q, ev).Some?
    ensures ev.id in q.vms && q.vms[ev.id]
    ensures ev.id in Accept(q, ev).value.vms && !Accept(q, ev).value.vms[ev.id]
  {
  }

  lemma CreatedFell(q: Atomic, o: nat, id: Id)
    requires Accept(q, Lin(o, Ok)).Some? && Accept(Accept(q, Lin(o, Ok)).value, Died(id)).Some?
    ensures var q' := Accept(Accept(q, Lin(o, Ok)).value, Died(id)).value;
      id in q'.vms && !q'.vms[id] && (id in q.vms ==> q.vms[id])
  {
  }

  lemma {:induction false} DeathsAreReal(steps: seq<Step>)
    requires Exec(steps).Some?
    ensures Deaths(History(steps)) <= Falls(steps)
  {
    if steps != [] {
      var init, last := steps[..|steps| - 1], steps[|steps| - 1];
      var s := Exec(init).value;
      HistoryExplains(init);
      StepSimulated(s, last);
      DeathsAreReal(init);
      DeathsAreFalls(s, last);
      DeathsAppend(History(init), EventsOf(s, last));
    }
  }

  /**
   * Linearizability: what clients see of any interleaved run, they could have seen of the atomic
   * object, in which every call takes effect at one moment between its invocation and its return.
   * The deaths it takes are deaths of the run.
   */
  lemma Linearizable(steps: seq<Step>)
    requires Exec(steps).Some?
    ensures exists h :: AcceptAll(NOTHING, h).Some? && External(h) == Trace(steps) && Deaths(h) <= Falls(steps)
  {
    HistoryExplains(steps);
    DeathsAreReal(steps);
    var h := History(steps);
    assert AcceptAll(NOTHING, h).Some? && External(h) == Trace(steps) && Deaths(h) <= Falls(steps);
  }
}

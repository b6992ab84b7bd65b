/**
 * Stops that outlive the VM they found. StopVM goes on without the lock, and all incarnations of an id
 * share one socket path: this is when a stop harms a VM created since.
 */
module StaleStops {
  import opened GoStrings
  import opened Lifecycle
  import opened Linearizability

  /** The call that step `e` advances. */
  predicate IsStepOf(e: Step, o: nat) {
    (e.Acquire? || e.Work? || e.Release? || e.Respond?) && e.o == o
  }

  /** In this step a deletion takes the VM of stop `o`'s id out of the registry. */
  predicate RemovesUnder(s: Sys, e: Step, o: nat) {
    && e.Work? && e.o < |s.calls| && s.calls[e.o].pc.Removing?
    && o < |s.calls| && s.calls[e.o].op.id == s.calls[o].op.id
  }

  /** While call `o` was under way, a VM of its id was deleted. */
  ghost predicate Overlapped(steps: seq<Step>, o: nat) {
    exists j :: 0 <= j < |steps| && RemovedAt(steps, j, o)
  }

  ghost predicate RemovedAt(steps: seq<Step>, j: nat, o: nat)
    requires j < |steps|
  {
    Exec(steps[..j]).Some? && RemovesUnder(Exec(steps[..j]).value, steps[j], o)
  }

  /** A step of stop `o` ends a process other than the one the stop found. */
  ghost predicate EndsAnother(s: Sys, e: Step, o: nat)
    requires Enabled(s, e) && o < |s.calls|
  {
    IsStepOf(e, o) && exists m :: m in s.running && m !in Next(s, e).running && s.calls[o].target != Some(m)
  }

  /** A step of stop `o` removes the socket of a live process other than the one the stop found. */
  predicate UnlinksAnother(s: Sys, e: Step, o: nat)
    requires Enabled(s, e) && o < |s.calls|
  {
    var id := s.calls[o].op.id;
    && IsStepOf(e, o) && id in s.sockets && id !in Next(s, e).sockets
    && s.sockets[id] in s.running && s.calls[o].target != Some(s.sockets[id])
  }

  // -------------------------------------------------------------- without an overlapping delete

  /** What a stop found is registered under its id. */
  predicate FoundIsThere(s: Sys, o: nat)
    requires o < |s.calls|
  {
    s.calls[o].target.Some? ==>
      Registered(s, s.calls[o].target.value) && s.recs[s.calls[o].target.value].id == s.calls[o].op.id
  }

  /** The call `o` moves on, and no other. */
  predicate MovesOne(s: Sys, s': Sys, o: nat, i: nat) {
    |s'.calls| == |s.calls| && (i < |s.calls| ==> s'.calls[i].op == s.calls[i].op && (i != o ==> s'.calls[i] == s.calls[i]))
  }

  lemma LookupMovesOne(s: Sys, o: nat, ok: bool, i: nat)
    requires o < |s.calls|
    ensures MovesOne(s, WorkLocked(s, o, ok), o, i)
  {
  }

  lemma AtMovesOne(s: Sys, o: nat, pc: Pc, target: Option<nat>, t: Sys, i: nat)
    requires o < |s.calls| && t.calls == s.calls[o := s.calls[o].(pc := pc, target := target)]
    ensures MovesOne(s, t, o, i)
  {
  }

  lemma WorkMovesOne(s: Sys, o: nat, ok: bool, obeys: bool, i: nat)
    requires Enabled(s, Work(o, ok, obeys))
    ensures MovesOne(s, WorkOn(s, o, ok, obeys), o, i)
  {
    if s.calls[o].pc.Locked? {
      LookupMovesOne(s, o, ok, i);
    } else {
      var t := WorkOn(s, o, ok, obeys);
      assert t.calls == s.calls[o := s.calls[o].(pc := t.calls[o].pc)] by { hide WorkLocked, Reached, Works, NeedsRecord; }
      hide WorkOn, MovesOne;
      AtMovesOne(s, o, t.calls[o].pc, s.calls[o].target, t, i);
    }
  }

  /** Calls keep their number and their operation; a new one has found nothing. */
  lemma CallsGrow(s: Sys, e: Step, o: nat)
    requires Enabled(s, e) && o < |Next(s, e).calls|
    ensures o < |s.calls| ==>
      Next(s, e).calls[o].op == s.calls[o].op && (!IsStepOf(e, o) ==> Next(s, e).calls[o] == s.calls[o])
    ensures o >= |s.calls| ==> Next(s, e).calls[o].target == None
  {
    if e.Work? {
      WorkMovesOne(s, e.o, e.ok, e.obeys, o);
      hide WorkOn, Enabled;
    }
  }

  lemma OwnStepKeepsFound(s: Sys, e: Step, o: nat)
    requires SysInv(s) && Enabled(s, e) && IsStepOf(e, o) && s.calls[o].op.OpStop? && FoundIsThere(s, o)
    ensures o < |Next(s, e).calls| && Next(s, e).calls[o].op == s.calls[o].op && FoundIsThere(Next(s, e), o)
  {
    assert CallOk(s, s.calls[o]);
    if e.Work? && s.calls[o].pc.Locked? && s.calls[o].op.id in s.vms {
      assert InMap(s, s.calls[o].op.id, s.vms[s.calls[o].op.id]);
    }
  }

  lemma OtherStepKeepsFound(s: Sys, e: Step, o: nat)
    requires SysInv(s) && Enabled(s, e) && o < |s.calls| && !IsStepOf(e, o) && !RemovesUnder(s, e, o)
    requires s.calls[o].op.OpStop? && FoundIsThere(s, o)
    ensures o < |Next(s, e).calls| && Next(s, e).calls[o] == s.calls[o] && FoundIsThere(Next(s, e), o)
  {
    CallsGrowAt(s, e, o);
    if e.Work? {
      assert CallOk(s, s.calls[e.o]);
      if s.calls[o].target.Some? { WorkKeepsRecord(s, e.o, e.ok, e.obeys, s.calls[o].target.value); }
      hide WorkOn, Enabled, SysInv;
    }
  }

  lemma CallsGrowAt(s: Sys, e: Step, o: nat)
    requires Enabled(s, e) && o < |s.calls| && !IsStepOf(e, o)
    ensures o < |Next(s, e).calls| && Next(s, e).calls[o] == s.calls[o]
  {
    if e.Work? {
      WorkMovesOne(s, e.o, e.ok, e.obeys, o);
      hide WorkOn, Enabled;
    }
  }

  /** A registered record stays, unless its id is deleted. */
  lemma WorkKeepsRecord(s: Sys, o: nat, ok: bool, obeys: bool, n: nat)
    requires Enabled(s, Work(o, ok, obeys)) && CallOk(s, s.calls[o]) && Registered(s, n)
    requires s.calls[o].pc.Removing? ==> s.calls[o].op.id != s.recs[n].id
    ensures var s' := WorkOn(s, o, ok, obeys); Registered(s', n) && s'.recs[n].id == s.recs[n].id
  {
    hide Reached, Listener;
  }

  lemma OverlappedGrows(steps: seq<Step>, more: seq<Step>, o: nat)
    requires steps <= more && Overlapped(steps, o)
    ensures Overlapped(more, o)
  {
    var j :| 0 <= j < |steps| && RemovedAt(steps, j, o);
    assert more[..j] == steps[..j];
    assert RemovedAt(more, j, o);
  }

  lemma StepKeepsFound(s: Sys, e: Step, o: nat)
    requires SysInv(s) && Enabled(s, e) && o < |s.calls| && !RemovesUnder(s, e, o)
    requires s.calls[o].op.OpStop? && FoundIsThere(s, o)
    ensures o < |Next(s, e).calls| && FoundIsThere(Next(s, e), o)
  {
    hide SysInv, FoundIsThere, RemovesUnder, Next, Enabled;
    if IsStepOf(e, o) { OwnStepKeepsFound(s, e, o); } else { OtherStepKeepsFound(s, e, o); }
  }

  lemma {:induction false} FoundStays(steps: seq<Step>, o: nat)
    requires Exec(steps).Some? && o < |Exec(steps).value.calls| && Exec(steps).value.calls[o].op.OpStop?
    requires !Overlapped(steps, o)
    ensures FoundIsThere(Exec(steps).value, o)
    decreases |steps|
  {
    if steps != [] {
      var init, e := steps[..|steps| - 1], steps[|steps| - 1];
      var s := Exec(init).value;
      assert Enabled(s, e) && Exec(steps) == Some(Next(s, e));
      CallsGrow(s, e, o);
      NotOverlappedSoFar(steps, o);
      hide Exec, SysInv, FoundIsThere, RemovesUnder, Overlapped, Next, Enabled;
      HistoryExplains(init);
      if o < |s.calls| {
        FoundStays(init, o);
        StepKeepsFound(s, e, o);
      } else {
        FoundNothing(Next(s, e), o);
      }
    }
  }

  lemma FoundNothing(s: Sys, o: nat)
    requires o < |s.calls| && s.calls[o].target == None
    ensures FoundIsThere(s, o)
  {
  }

  lemma NotOverlappedSoFar(steps: seq<Step>, o: nat)
    requires steps != [] && Exec(steps).Some? && !Overlapped(steps, o)
    ensures !Overlapped(steps[..|steps| - 1], o)
    ensures !RemovesUnder(Exec(steps[..|steps| - 1]).value, steps[|steps| - 1], o)
  {
    hide RemovesUnder, Next, Enabled;
    var init := steps[..|steps| - 1];
    if Overlapped(init, o) { OverlappedGrows(init, steps, o); }
    assert !RemovedAt(steps, |init|, o);
  }

  // ------------------------------------------------------------------ what a step of a stop can do

  /** Registry and other records as before, and at most the process found or the listener ended. */
  predicate TouchesLittle(s: Sys, s': Sys, c: Call)
    requires c.op.OpStop?
  {
    && s'.vms == s.vms && s'.recs.Keys == s.recs.Keys
    && (forall n :: n in s.recs && c.target != Some(n) ==> s'.recs[n] == s.recs[n])
    && (forall m :: m in s.running && m !in s'.running ==>
          c.target == Some(m) || (!c.op.force && c.pc.Asking? && c.pc.pid !in s.running && Listener(s, c.op.id) == Some(m)))
    && (s'.sockets != s.sockets ==> c.pc.Unlinking? && s'.sockets == s.sockets - {c.op.id})
  }

  lemma StoppingTouchesLittle(s: Sys, o: nat, ok: bool, obeys: bool)
    requires SysInv(s) && Enabled(s, Work(o, ok, obeys)) && StopsAt(s.calls[o])
    ensures TouchesLittle(s, Next(s, Work(o, ok, obeys)), s.calls[o])
  {
    assert CallOk(s, s.calls[o]) && s.next !in s.running;
    StopShape(s, o, ok, obeys);
    if !s.calls[o].pc.Unlinking? { StopKeepsSockets(s, Work(o, ok, obeys)); }
    hide Next, SysInv, Enabled;
  }

  /**
   * A stop, stale or not, never touches the registry or another record, and it ends no process but
   * the one it found and, if it is unforced and that one is dead, the one listening on the path.
   */
  lemma StopsTouchLittle(s: Sys, e: Step, o: nat)
    requires SysInv(s) && Enabled(s, e) && IsStepOf(e, o) && s.calls[o].op.OpStop?
    ensures TouchesLittle(s, Next(s, e), s.calls[o])
  {
    if e.Work? && StopsAt(s.calls[o]) {
      hide SysInv, Next, TouchesLittle;
      StoppingTouchesLittle(s, o, e.ok, e.obeys);
    } else {
      assert CallOk(s, s.calls[o]);
      assert e.Work? ==> s.calls[o].pc.Locked? || s.calls[o].pc.MarkLocked?;
      hide SysInv, StopsAt, Reached, Listener;
    }
  }

  lemma StopKeepsSockets(s: Sys, e: Step)
    requires Enabled(s, e) && e.Work? && StopsAt(s.calls[e.o]) && !s.calls[e.o].pc.Unlinking?
    ensures Next(s, e).sockets == s.sockets
  {
  }

  lemma HarmlessWhileThere(s: Sys, e: Step, o: nat)
    requires SysInv(s) && Enabled(s, e) && o < |s.calls| && s.calls[o].op.OpStop? && FoundIsThere(s, o)
    ensures !EndsAnother(s, e, o) && !UnlinksAnother(s, e, o)
  {
    if IsStepOf(e, o) {
      StopsTouchLittle(s, e, o);
      assert CallOk(s, s.calls[o]);
      if s.calls[o].op.id in s.sockets { assert SocketOk(s, s.calls[o].op.id); }
      hide SysInv, Next, Enabled;
    }
  }

  // ------------------------------------------------------------------------------- runs that harm

  lemma Extend(steps: seq<Step>, s: Sys, e: Step)
    requires Exec(steps) == Some(s) && Enabled(s, e)
    ensures Exec(steps + [e]) == Some(Next(s, e)) && steps <= steps + [e]
  {
    assert (steps + [e])[..|steps|] == steps;
  }

  /** A creation of `x` up to the moment before its first request. */
  lemma Starting(steps: seq<Step>, s: Sys, x: Id) returns (more: seq<Step>, t: Sys)
    requires Exec(steps) == Some(s) && s.writer.None? && s.readers == {} && x !in s.vms
    ensures Exec(more) == Some(t) && steps <= more
    ensures t == s.(writer := Some(|s.calls|), running := s.running + {s.next}, sockets := s.sockets[x := s.next],
                    next := s.next + 1, calls := s.calls + [Call(OpCreate(x), Spawned(s.next), None)])
  {
    hide Exec;
    var o := |s.calls|;
    Extend(steps, s, Invoke(OpCreate(x)));
    var s1, m1 := Next(s, Invoke(OpCreate(x))), steps + [Invoke(OpCreate(x))];
    Extend(m1, s1, Acquire(o));
    var s2, m2 := Next(s1, Acquire(o)), m1 + [Acquire(o)];
    Extend(m2, s2, Work(o, true, true));
    t, more := Next(s2, Work(o, true, true)), m2 + [Work(o, true, true)];
    assert t.calls == s.calls + [Call(OpCreate(x), Spawned(s.next), None)];
  }

  /** The rest of a creation that meets no failure. */
  lemma Committing(steps: seq<Step>, s: Sys, o: nat, x: Id, n: nat) returns (more: seq<Step>, t: Sys)
    requires Exec(steps) == Some(s) && s.writer == Some(o)
    requires o < |s.calls| && s.calls[o] == Call(OpCreate(x), Spawned(n), None) && Listener(s, x) == Some(n)
    ensures Exec(more) == Some(t) && steps <= more
    ensures t == s.(writer := None, vms := s.vms[x := n], recs := s.recs[n := Rec(x, false)],
                    calls := s.calls[o := Call(OpCreate(x), Done(Ok), None)])
  {
    hide Exec;
    Extend(steps, s, Work(o, true, true));
    var s1, m1 := Next(s, Work(o, true, true)), steps + [Work(o, true, true)];
    assert s1 == At(s, o, Configuring(n));
    Extend(m1, s1, Work(o, true, true));
    var s2, m2 := Next(s1, Work(o, true, true)), m1 + [Work(o, true, true)];
    Extend(m2, s2, Release(o));
    t, more := Next(s2, Release(o)), m2 + [Release(o)];
  }

  /** A creation of `x` that meets no failure. */
  lemma Creating(steps: seq<Step>, s: Sys, x: Id) returns (more: seq<Step>, t: Sys)
    requires Exec(steps) == Some(s) && s.writer.None? && s.readers == {} && x !in s.vms
    ensures Exec(more) == Some(t) && steps <= more
    ensures t == s.(vms := s.vms[x := s.next], recs := s.recs[s.next := Rec(x, false)],
                    running := s.running + {s.next}, sockets := s.sockets[x := s.next], next := s.next + 1,
                    calls := s.calls + [Call(OpCreate(x), Done(Ok), None)])
  {
    var m1, s1 := Starting(steps, s, x);
    hide Exec;
    more, t := Committing(m1, s1, |s.calls|, x, s.next);
    assert t.calls == s.calls + [Call(OpCreate(x), Done(Ok), None)];
  }

  /** A deletion of `x` up to the moment before it takes the VM out of the registry. */
  lemma Killing(steps: seq<Step>, s: Sys, x: Id) returns (more: seq<Step>, t: Sys)
    requires Exec(steps) == Some(s) && s.writer.None? && s.readers == {} && x in s.vms
    ensures Exec(more) == Some(t) && steps <= more
    ensures t == s.(writer := Some(|s.calls|), running := s.running - {s.vms[x]},
                    calls := s.calls + [Call(OpDelete(x), Removing(s.vms[x]), Some(s.vms[x]))])
  {
    hide Exec;
    var o := |s.calls|;
    Extend(steps, s, Invoke(OpDelete(x)));
    var s1, m1 := Next(s, Invoke(OpDelete(x))), steps + [Invoke(OpDelete(x))];
    Extend(m1, s1, Acquire(o));
    var s2, m2 := Next(s1, Acquire(o)), m1 + [Acquire(o)];
    Extend(m2, s2, Work(o, true, true));
    var s3, m3 := Next(s2, Work(o, true, true)), m2 + [Work(o, true, true)];
    Extend(m3, s3, Work(o, true, true));
    t, more := Next(s3, Work(o, true, true)), m3 + [Work(o, true, true)];
    assert t.calls == s.calls + [Call(OpDelete(x), Removing(s.vms[x]), Some(s.vms[x]))];
  }

  /** The rest of a deletion. */
  lemma Removed(steps: seq<Step>, s: Sys, o: nat, x: Id, n: nat) returns (more: seq<Step>, t: Sys)
    requires Exec(steps) == Some(s) && s.writer == Some(o)
    requires o < |s.calls| && s.calls[o] == Call(OpDelete(x), Removing(n), Some(n))
    ensures more == steps + [Work(o, true, true), Release(o)] && Exec(more) == Some(t)
    ensures t == s.(writer := None, vms := s.vms - {x}, sockets := s.sockets - {x},
                    calls := s.calls[o := Call(OpDelete(x), Done(Ok), Some(n))])
  {
    hide Exec;
    Extend(steps, s, Work(o, true, true));
    var s1, m1 := Next(s, Work(o, true, true)), steps + [Work(o, true, true)];
    Extend(m1, s1, Release(o));
    t, more := Next(s1, Release(o)), m1 + [Release(o)];
    assert more == steps + [Work(o, true, true), Release(o)];
  }

  /** A deletion of `x`, which overlaps call `p` on `x`. */
  lemma Deleting(steps: seq<Step>, s: Sys, x: Id, p: nat) returns (more: seq<Step>, t: Sys)
    requires Exec(steps) == Some(s) && s.writer.None? && s.readers == {} && x in s.vms
    requires p < |s.calls| && s.calls[p].op.id == x
    ensures Exec(more) == Some(t) && steps <= more && Overlapped(more, p)
    ensures t == s.(vms := s.vms - {x}, running := s.running - {s.vms[x]}, sockets := s.sockets - {x},
                    calls := s.calls + [Call(OpDelete(x), Done(Ok), Some(s.vms[x]))])
  {
    hide Exec, Next, Enabled;
    var m1, s1 := Killing(steps, s, x);
    more, t := Removed(m1, s1, |s.calls|, x, s.vms[x]);
    assert more[..|m1|] == m1 && more[|m1|] == Work(|s.calls|, true, true) && s1.calls[p] == s.calls[p];
    assert RemovedAt(more, |m1|, p);
    assert t.calls == s.calls + [Call(OpDelete(x), Done(Ok), Some(s.vms[x]))];
  }

  /** A stop that has found its record and left the lock. */
  lemma Stopping(steps: seq<Step>, s: Sys, x: Id, force: bool) returns (more: seq<Step>, t: Sys)
    requires Exec(steps) == Some(s) && s.writer.None? && s.readers == {} && x in s.vms
    ensures Exec(more) == Some(t) && steps <= more
    ensures var n := s.vms[x];
      t == s.(calls := s.calls + [Call(OpStop(x, force), if force then Ending(n) else Asking(n), Some(n))])
  {
    hide Exec;
    var o, op := |s.calls|, OpStop(x, force);
    Extend(steps, s, Invoke(op));
    var s1, m1 := Next(s, Invoke(op)), steps + [Invoke(op)];
    Extend(m1, s1, Acquire(o));
    var s2, m2 := Next(s1, Acquire(o)), m1 + [Acquire(o)];
    Extend(m2, s2, Work(o, true, true));
    var s3, m3 := Next(s2, Work(o, true, true)), m2 + [Work(o, true, true)];
    Extend(m3, s3, Release(o));
    t, more := Next(s3, Release(o)), m3 + [Release(o)];
    assert t.readers == s.readers;
    assert t.calls == s.calls + [Call(op, if force then Ending(s.vms[x]) else Asking(s.vms[x]), Some(s.vms[x]))];
  }

  /** A stop that has ended its process and is about to remove the socket path. */
  lemma StoppedProcess(steps: seq<Step>, s: Sys, x: Id, force: bool) returns (more: seq<Step>, t: Sys)
    requires Exec(steps) == Some(s) && s.writer.None? && s.readers == {} && x in s.vms && s.vms[x] in s.running
    ensures Exec(more) == Some(t) && steps <= more
    ensures var n := s.vms[x];
      t == s.(running := s.running - {n}, calls := s.calls + [Call(OpStop(x, force), Unlinking(n), Some(n))])
  {
    var o := |s.calls|;
    var m1, s1 := Stopping(steps, s, x, force);
    hide Exec;
    Extend(m1, s1, Work(o, true, true));
    t, more := Next(s1, Work(o, true, true)), m1 + [Work(o, true, true)];
    if !force {
      Extend(more, t, Work(o, true, true));
      t, more := Next(t, Work(o, true, true)), more + [Work(o, true, true)];
    }
    assert t.running == s.running - {s.vms[x]};
    assert t.calls == s.calls + [Call(OpStop(x, force), Unlinking(s.vms[x]), Some(s.vms[x]))];
  }

  /** One VM, `x`, just created. */
  lemma FirstVM(x: Id) returns (steps: seq<Step>, s: Sys)
    ensures Exec(steps) == Some(s) && s.writer.None? && s.readers == {} && |s.calls| == 1 && s.next == 1
    ensures x in s.vms && s.vms[x] == 0 && s.running == {0}
  {
    assert Exec([]) == Some(START);
    steps, s := Creating([], START, x);
  }

  /** The VM of a stop is deleted, and `x` created again, up to the first request or to the end. */
  lemma NextVM(steps: seq<Step>, s: Sys, x: Id, p: nat, whole: bool) returns (more: seq<Step>, t: Sys)
    requires Exec(steps) == Some(s) && s.writer.None? && s.readers == {} && x in s.vms && s.vms[x] < s.next
    requires p < |s.calls| && s.calls[p].op.id == x
    ensures Exec(more) == Some(t) && Overlapped(more, p)
    ensures |t.calls| == |s.calls| + 2 && t.calls[p] == s.calls[p] && t.calls[|s.calls| + 1].op == OpCreate(x)
    ensures s.next in t.running && s.vms[x] !in t.running && x in t.sockets && t.sockets[x] == s.next
    ensures whole ==> x in t.vms && t.vms[x] == s.next && s.next in t.recs && !t.recs[s.next].stopped
    ensures !whole ==> t.calls[|s.calls| + 1].pc == Spawned(s.next)
  {
    var m1, s1 := Deleting(steps, s, x, p);
    if whole { more, t := Creating(m1, s1, x); } else { more, t := Starting(m1, s1, x); }
    OverlappedGrows(m1, more, p);
  }

  lemma AskReachesListener(s: Sys, o: nat, n: nat, m: nat)
    requires o < |s.calls| && s.calls[o].op.OpStop? && s.calls[o].pc == Asking(n) && n !in s.running
    requires Listener(s, s.calls[o].op.id) == Some(m)
    ensures Enabled(s, Work(o, true, true))
    ensures var t := Next(s, Work(o, true, true));
      t == s.(running := s.running - {m}, calls := s.calls[o := s.calls[o].(pc := Terming(n))])
  {
  }

  /**
   * It does happen: an unforced stop of `x` finds its record, the VM is deleted and created again, and
   * the stop's Ctrl-Alt-Del ends the new VM.
   */
  lemma UnforcedStopCanKillTheNext(x: Id) returns (steps: seq<Step>, s: Sys)
    ensures Exec(steps) == Some(s) && Overlapped(steps, 1)
    ensures |s.calls| > 1 && s.calls[1].op == OpStop(x, false) && s.calls[1].target == Some(0)
    ensures x in s.vms && s.vms[x] == 1 && 1 in s.running
    ensures Enabled(s, Work(1, true, true)) && EndsAnother(s, Work(1, true, true), 1)
    ensures var t := Next(s, Work(1, true, true)); t.vms == s.vms && t.recs == s.recs && 1 !in t.running
  {
    var m1, s1 := FirstVM(x);
    var m2, s2 := Stopping(m1, s1, x, false);
    assert s2.calls[1] == Call(OpStop(x, false), Asking(0), Some(0));
    steps, s := NextVM(m2, s2, x, 1, true);
    AskReachesListener(s, 1, 0, 1);
    hide Exec, Overlapped, Enabled, Next;
    assert 1 in s.running && 1 !in Next(s, Work(1, true, true)).running && s.calls[1].target == Some(0);
  }

  lemma UnlinkForgets(s: Sys, o: nat, n: nat)
    requires o < |s.calls| && s.calls[o].op.OpStop? && s.calls[o].pc == Unlinking(n)
    ensures Enabled(s, Work(o, true, true))
    ensures var t := Next(s, Work(o, true, true));
      t == s.(sockets := s.sockets - {s.calls[o].op.id}, calls := s.calls[o := s.calls[o].(pc := Marking(n))])
  {
  }

  /** Any stop of `x` can come to remove the socket of the next VM of that id, which still runs. */
  lemma StaleStopCanUnlinkTheNext(x: Id, force: bool) returns (steps: seq<Step>, s: Sys)
    ensures Exec(steps) == Some(s) && Overlapped(steps, 1)
    ensures |s.calls| > 1 && s.calls[1].op == OpStop(x, force)
    ensures x in s.vms && s.vms[x] == 1 && 1 in s.running && Listener(s, x) == Some(1)
    ensures Enabled(s, Work(1, true, true)) && UnlinksAnother(s, Work(1, true, true), 1)
    ensures var t := Next(s, Work(1, true, true)); 1 in t.running && Listener(t, x) == None
  {
    var m1, s1 := FirstVM(x);
    var m2, s2 := StoppedProcess(m1, s1, x, force);
    assert s2.calls[1] == Call(OpStop(x, force), Unlinking(0), Some(0));
    steps, s := NextVM(m2, s2, x, 1, true);
    UnlinkForgets(s, 1, 0);
    hide Exec, Overlapped, Enabled, Next;
  }

  lemma ConnectingNeedsTheSocket(s: Sys, o: nat, n: nat, obeys: bool)
    requires o < |s.calls| && s.calls[o].op.OpCreate? && s.calls[o].pc == Spawned(n)
    ensures Enabled(s, Work(o, true, obeys)) <==> Listener(s, s.calls[o].op.id) == Some(n)
  {
  }

  /** If the next creation has not connected yet, it can only fail, though its instance is well. */
  lemma StaleStopCanFailTheNextCreation(x: Id, force: bool) returns (steps: seq<Step>, s: Sys, o: nat)
    ensures Exec(steps) == Some(s)
    ensures |s.calls| > 1 && s.calls[1].op == OpStop(x, force) && Enabled(s, Work(1, true, true))
    ensures o < |s.calls| && s.calls[o].op == OpCreate(x) && Enabled(s, Work(o, true, true))
    ensures var t := Next(s, Work(1, true, true));
      && o < |t.calls| && t.calls[o] == s.calls[o] && t.calls[o].pc.Spawned? && t.calls[o].pc.pid in t.running
      && !Enabled(t, Work(o, true, true)) && !Enabled(t, Work(o, true, false))
  {
    hide Exec, Overlapped, Next, Enabled;
    var m1, s1 := FirstVM(x);
    var m2, s2 := StoppedProcess(m1, s1, x, force);
    assert s2.calls[1] == Call(OpStop(x, force), Unlinking(0), Some(0)) && s2.vms == s1.vms && s2.next == 1;
    steps, s := NextVM(m2, s2, x, 1, false);
    o := 3;
    UnlinkForgets(s, 1, 0);
    var t := Next(s, Work(1, true, true));
    ConnectingNeedsTheSocket(s, o, 1, true);
    ConnectingNeedsTheSocket(t, o, 1, true);
    ConnectingNeedsTheSocket(t, o, 1, false);
  }

  // -------------------------------------------------------------------------- exactly when

  /** Some stop of `x` ends, in some run, a process it did not find. */
  ghost predicate StopCanEndAnother(x: Id, force: bool, overlapped: bool) {
    exists steps, e, o :: StopHarms(steps, e, o, x, force, overlapped) && EndsAnother(Exec(steps).value, e, o)
  }

  /** Some stop of `x` removes, in some run, the socket of a process it did not find. */
  ghost predicate StopCanUnlinkAnother(x: Id, force: bool, overlapped: bool) {
    exists steps, e, o :: StopHarms(steps, e, o, x, force, overlapped) && UnlinksAnother(Exec(steps).value, e, o)
  }

  /** After `steps`, step `e` of call `o`, such a stop of `x`, is possible. */
  ghost predicate StopHarms(steps: seq<Step>, e: Step, o: nat, x: Id, force: bool, overlapped: bool) {
    && Exec(steps).Some? && Enabled(Exec(steps).value, e)
    && o < |Exec(steps).value.calls| && Exec(steps).value.calls[o].op == OpStop(x, force)
    && (Overlapped(steps, o) <==> overlapped)
  }

  lemma OnlyOverlapped(steps: seq<Step>, e: Step, o: nat, x: Id, force: bool, overlapped: bool)
    requires StopHarms(steps, e, o, x, force, overlapped)
    ensures !overlapped ==> !EndsAnother(Exec(steps).value, e, o) && !UnlinksAnother(Exec(steps).value, e, o)
    ensures force ==> !EndsAnother(Exec(steps).value, e, o)
  {
    var s := Exec(steps).value;
    HistoryExplains(steps);
    if !overlapped {
      FoundStays(steps, o);
      hide Exec, SysInv, FoundIsThere, EndsAnother, UnlinksAnother;
      HarmlessWhileThere(s, e, o);
    } else if IsStepOf(e, o) {
      StopsTouchLittle(s, e, o);
      hide Exec, SysInv, Next, Overlapped;
    }
  }

  /**
   * Exactly when a stop can end a process it did not find: if it is not forced, and a deletion of its
   * id takes effect before it returns.
   */
  lemma StaleStopEndsExactly(x: Id, force: bool, overlapped: bool)
    ensures StopCanEndAnother(x, force, overlapped) <==> !force && overlapped
  {
    if StopCanEndAnother(x, force, overlapped) {
      var steps, e, o :|
        StopHarms(steps, e, o, x, force, overlapped) && EndsAnother(Exec(steps).value, e, o);
      hide StopHarms, EndsAnother, Exec;
      OnlyOverlapped(steps, e, o, x, force, overlapped);
    }
    if !force && overlapped {
      var steps, s := UnforcedStopCanKillTheNext(x);
      hide EndsAnother, Enabled;
      assert StopHarms(steps, Work(1, true, true), 1, x, force, overlapped);
    }
  }

  /**
   * Exactly when a stop, forced or not, can remove the socket of a process it did not find: if a
   * deletion of its id takes effect before it returns.
   */
  lemma StaleStopUnlinksExactly(x: Id, force: bool, overlapped: bool)
    ensures StopCanUnlinkAnother(x, force, overlapped) <==> overlapped
  {
    if StopCanUnlinkAnother(x, force, overlapped) {
      var steps, e, o :|
        StopHarms(steps, e, o, x, force, overlapped) && UnlinksAnother(Exec(steps).value, e, o);
      hide StopHarms, UnlinksAnother, Exec;
      OnlyOverlapped(steps, e, o, x, force, overlapped);
    }
    if overlapped {
      var steps, s := StaleStopCanUnlinkTheNext(x, force);
      hide UnlinksAnother, Enabled;
      assert StopHarms(steps, Work(1, true, true), 1, x, force, overlapped);
    }
  }
}

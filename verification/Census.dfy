/** What the counters of interleaved handlers come to once every call has returned. */
module Census {
  import opened GoStrings
  import opened Lifecycle
  import opened Linearizability
  import opened StaleStops

  datatype Kind = Creations | Deletions | Stoppings

  /** A call whose success makes its handler move the counters. */
  predicate Succeeded(c: Call, kind: Kind) {
    && (match kind case Creations => c.op.OpCreate? case Deletions => c.op.OpDelete? case Stoppings => c.op.OpStop?)
    && (c.pc == DoneWriting(Ok) || c.pc == DoneReading(Ok) || c.pc == Done(Ok) || c.pc == Returned(Ok))
  }

  function Count(calls: seq<Call>, kind: Kind): nat {
    if calls == [] then 0
    else Count(calls[..|calls| - 1], kind) + if Succeeded(calls[|calls| - 1], kind) then 1 else 0
  }

  lemma {:induction false} CountUpdate(calls: seq<Call>, o: nat, c: Call, kind: Kind)
    requires o < |calls|
    ensures Count(calls[o := c], kind) + (if Succeeded(calls[o], kind) then 1 else 0)
      == Count(calls, kind) + if Succeeded(c, kind) then 1 else 0
    decreases |calls|
  {
    var init, updated := calls[..|calls| - 1], calls[o := c];
    if o < |calls| - 1 {
      assert updated[..|calls| - 1] == init[o := c];
      CountUpdate(init, o, c, kind);
    } else {
      assert updated[..|calls| - 1] == init;
    }
  }

  lemma CountAppend(calls: seq<Call>, c: Call, kind: Kind)
    ensures Count(calls + [c], kind) == Count(calls, kind) + if Succeeded(c, kind) then 1 else 0
  {
    assert (calls + [c])[..|calls|] == calls;
  }

  /** Registered VMs are those created and not deleted. */
  ghost predicate Balanced(s: Sys) {
    |s.vms| + Count(s.calls, Deletions) == Count(s.calls, Creations)
  }

  /** A step that succeeds for no call, or keeps a success, and leaves the registry. */
  predicate Keeps(s: Sys, s': Sys, o: nat) {
    && s'.vms == s.vms && o < |s.calls| && |s'.calls| == |s.calls| && s'.calls == s.calls[o := s'.calls[o]]
    && (Succeeded(s'.calls[o], Creations) <==> Succeeded(s.calls[o], Creations))
    && (Succeeded(s'.calls[o], Deletions) <==> Succeeded(s.calls[o], Deletions))
  }

  lemma KeepsBalance(s: Sys, s': Sys, o: nat)
    requires Balanced(s) && Keeps(s, s', o)
    ensures Balanced(s')
  {
    CountUpdate(s.calls, o, s'.calls[o], Creations);
    CountUpdate(s.calls, o, s'.calls[o], Deletions);
  }

  /** The two steps that change the registry. */
  predicate ChangesRegistry(s: Sys, e: Step) {
    e.Work? && e.o < |s.calls| && ((s.calls[e.o].pc.Configuring? && e.ok) || s.calls[e.o].pc.Removing?)
  }

  lemma WorkMovesOnly(s: Sys, o: nat, ok: bool, obeys: bool)
    requires Enabled(s, Work(o, ok, obeys))
    ensures var s' := WorkOn(s, o, ok, obeys); |s'.calls| == |s.calls| && s'.calls == s.calls[o := s'.calls[o]]
  {
    var s' := WorkOn(s, o, ok, obeys);
    forall i | 0 <= i < |s.calls| ensures MovesOne(s, s', o, i) { WorkMovesOne(s, o, ok, obeys, i); }
    WorkMovesOne(s, o, ok, obeys, o);
    hide WorkOn, Enabled;
  }

  /** No creation or deletion succeeds. */
  predicate NoSuccess(c: Call) { !Succeeded(c, Creations) && !Succeeded(c, Deletions) }

  lemma LookupSucceeds(s: Sys, o: nat, ok: bool)
    requires o < |s.calls| && s.calls[o].pc.Locked?
    ensures var s' := WorkLocked(s, o, ok); s'.vms == s.vms && o < |s'.calls| && NoSuccess(s'.calls[o])
  {
  }

  lemma StopSucceeds(s: Sys, o: nat, ok: bool, obeys: bool)
    requires Enabled(s, Work(o, ok, obeys)) && CallOk(s, s.calls[o]) && (StopsAt(s.calls[o]) || s.calls[o].pc.MarkLocked?)
    ensures var s' := WorkOn(s, o, ok, obeys); s'.vms == s.vms && o < |s'.calls| && NoSuccess(s'.calls[o])
  {
    assert s.calls[o].op.OpStop?;
    WorkMovesOne(s, o, ok, obeys, o);
    hide CallOk, Enabled, WorkLocked, Reached;
  }

  lemma RestSucceeds(s: Sys, o: nat, ok: bool, obeys: bool)
    requires Enabled(s, Work(o, ok, obeys)) && CallOk(s, s.calls[o]) && !ChangesRegistry(s, Work(o, ok, obeys))
    requires !s.calls[o].pc.Locked? && !StopsAt(s.calls[o]) && !s.calls[o].pc.MarkLocked?
    ensures var s' := WorkOn(s, o, ok, obeys); s'.vms == s.vms && o < |s'.calls| && NoSuccess(s'.calls[o])
  {
    hide Reached, Listener, NeedsRecord, WorkLocked;
  }

  lemma WorkSucceeds(s: Sys, o: nat, ok: bool, obeys: bool)
    requires Enabled(s, Work(o, ok, obeys)) && CallOk(s, s.calls[o]) && !ChangesRegistry(s, Work(o, ok, obeys))
    ensures var s' := WorkOn(s, o, ok, obeys);
      s'.vms == s.vms && o < |s'.calls| && NoSuccess(s'.calls[o]) && NoSuccess(s.calls[o])
  {
    assert NoSuccess(s.calls[o]) by { hide CallOk, WorkOn; }
    hide NoSuccess, CallOk;
    if s.calls[o].pc.Locked? {
      LookupSucceeds(s, o, ok);
    } else {
      hide WorkOn;
      if StopsAt(s.calls[o]) || s.calls[o].pc.MarkLocked? { StopSucceeds(s, o, ok, obeys); } else { RestSucceeds(s, o, ok, obeys); }
    }
  }

  lemma WorkKeeps(s: Sys, o: nat, ok: bool, obeys: bool)
    requires SysInv(s) && Enabled(s, Work(o, ok, obeys)) && !ChangesRegistry(s, Work(o, ok, obeys))
    ensures Keeps(s, Next(s, Work(o, ok, obeys)), o)
  {
    assert o < |s.calls| && CallOk(s, s.calls[o]);
    WorkMovesOnly(s, o, ok, obeys);
    WorkSucceeds(s, o, ok, obeys);
    hide SysInv, CallOk, Enabled, WorkOn, Succeeded;
  }

  lemma CallKnown(s: Sys, o: nat)
    requires SysInv(s) && o < |s.calls|
    ensures CallOk(s, s.calls[o])
  {
  }

  lemma OneMore(vms: map<Id, nat>, id: Id, n: nat)
    requires id !in vms
    ensures |vms[id := n]| == |vms| + 1
  {
    assert vms[id := n].Keys == vms.Keys + {id};
    assert |vms[id := n]| == |vms[id := n].Keys| && |vms| == |vms.Keys|;
  }

  lemma OneLess(vms: map<Id, nat>, id: Id)
    requires id in vms
    ensures |vms - {id}| == |vms| - 1
  {
    assert (vms - {id}).Keys == vms.Keys - {id};
    assert |vms - {id}| == |(vms - {id}).Keys| && |vms| == |vms.Keys|;
  }

  lemma CommitShape(s: Sys, o: nat, obeys: bool)
    requires Enabled(s, Work(o, true, obeys)) && s.calls[o].pc.Configuring? && CallOk(s, s.calls[o])
    ensures var s', c := WorkOn(s, o, true, obeys), s.calls[o];
      && c.op.OpCreate? && c.op.id !in s.vms && s'.vms == s.vms[c.op.id := c.pc.pid]
      && s'.calls == s.calls[o := c.(pc := DoneWriting(Ok))]
  {
  }

  lemma CommitKeepsBalance(s: Sys, o: nat, obeys: bool)
    requires SysInv(s) && Balanced(s) && Enabled(s, Work(o, true, obeys)) && s.calls[o].pc.Configuring?
    ensures Balanced(Next(s, Work(o, true, obeys)))
  {
    hide SysInv, CallOk, WorkOn;
    var s', c := WorkOn(s, o, true, obeys), s.calls[o];
    CallKnown(s, o);
    CommitShape(s, o, obeys);
    OneMore(s.vms, c.op.id, c.pc.pid);
    CountUpdate(s.calls, o, s'.calls[o], Creations);
    CountUpdate(s.calls, o, s'.calls[o], Deletions);
  }

  lemma RemovalShape(s: Sys, o: nat, ok: bool, obeys: bool)
    requires Enabled(s, Work(o, ok, obeys)) && s.calls[o].pc.Removing? && CallOk(s, s.calls[o])
    ensures var s', c := WorkOn(s, o, ok, obeys), s.calls[o];
      && c.op.OpDelete? && c.op.id in s.vms && s'.vms == s.vms - {c.op.id}
      && s'.calls == s.calls[o := c.(pc := DoneWriting(Ok))]
  {
  }

  lemma RemovalKeepsBalance(s: Sys, o: nat, ok: bool, obeys: bool)
    requires SysInv(s) && Balanced(s) && Enabled(s, Work(o, ok, obeys)) && s.calls[o].pc.Removing?
    ensures Balanced(Next(s, Work(o, ok, obeys)))
  {
    hide SysInv, CallOk, WorkOn;
    var s', c := WorkOn(s, o, ok, obeys), s.calls[o];
    CallKnown(s, o);
    RemovalShape(s, o, ok, obeys);
    OneLess(s.vms, c.op.id);
    CountUpdate(s.calls, o, s'.calls[o], Creations);
    CountUpdate(s.calls, o, s'.calls[o], Deletions);
  }

  lemma AcquireKeeps(s: Sys, o: nat)
    requires Enabled(s, Acquire(o))
    ensures Keeps(s, Next(s, Acquire(o)), o)
  {
  }

  lemma ReleaseKeeps(s: Sys, o: nat)
    requires Enabled(s, Release(o))
    ensures Keeps(s, Next(s, Release(o)), o)
  {
    var s' := Next(s, Release(o));
    assert s'.calls == s.calls[o := s.calls[o].(pc := s'.calls[o].pc)];
  }

  lemma RespondKeeps(s: Sys, o: nat)
    requires Enabled(s, Respond(o))
    ensures Keeps(s, Next(s, Respond(o)), o)
  {
  }

  lemma StepKeepsBalance(s: Sys, e: Step)
    requires SysInv(s) && Balanced(s) && Enabled(s, e)
    ensures Balanced(Next(s, e))
  {
    match e {
      case Invoke(op) =>
        CountAppend(s.calls, Call(op, Waiting, None), Creations);
        CountAppend(s.calls, Call(op, Waiting, None), Deletions);
      case Crash(_) =>
      case Work(o, ok, obeys) =>
        hide SysInv, Balanced, Keeps, Next;
        if ChangesRegistry(s, e) && s.calls[o].pc.Configuring? {
          CommitKeepsBalance(s, o, obeys);
        } else if ChangesRegistry(s, e) {
          RemovalKeepsBalance(s, o, ok, obeys);
        } else {
          WorkKeeps(s, o, ok, obeys);
          KeepsBalance(s, Next(s, e), o);
        }
      case Acquire(o) =>
        hide SysInv, Balanced, Keeps, Next;
        AcquireKeeps(s, o);
        KeepsBalance(s, Next(s, e), o);
      case Release(o) =>
        hide SysInv, Balanced, Keeps, Next;
        ReleaseKeeps(s, o);
        KeepsBalance(s, Next(s, e), o);
      case Respond(o) =>
        hide SysInv, Balanced, Keeps, Next;
        RespondKeeps(s, o);
        KeepsBalance(s, Next(s, e), o);
    }
  }

  lemma {:induction false} RegistryBalances(steps: seq<Step>)
    requires Exec(steps).Some?
    ensures Balanced(Exec(steps).value)
  {
    if steps != [] {
      var init, last := steps[..|steps| - 1], steps[|steps| - 1];
      RegistryBalances(init);
      HistoryExplains(init);
      StepKeepsBalance(Exec(init).value, last);
    }
  }

  /** Every call has returned, so every handler has moved its counters. */
  ghost predicate Quiescent(s: Sys) {
    forall o :: 0 <= o < |s.calls| ==> s.calls[o].pc.Returned?
  }

  function VMsCreated(s: Sys): int { Count(s.calls, Creations) }

  function VMsRunning(s: Sys): int {
    Count(s.calls, Creations) - Count(s.calls, Stoppings) - Count(s.calls, Deletions)
  }

  /** However the handlers interleaved, at rest the metrics are what they would be after a serial run. */
  lemma InterleavedMetrics(steps: seq<Step>)
    requires Exec(steps).Some? && Quiescent(Exec(steps).value)
    ensures var s := Exec(steps).value;
      && VMsCreated(s) == |s.vms| + Count(s.calls, Deletions)
      && VMsRunning(s) == |s.vms| - Count(s.calls, Stoppings)
  {
    RegistryBalances(steps);
  }
}

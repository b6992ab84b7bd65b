/** What the concurrent protocol guarantees to a caller. */
module Incarnations {
  import opened GoStrings
  import opened Lifecycle
  import opened Linearizability

  // ------------------------------------------------------------- real time in accepted histories

  function Invocations(h: seq<Event>): nat {
    if h == [] then 0 else Invocations(h[..|h| - 1]) + if h[|h| - 1].Inv? then 1 else 0
  }

  lemma {:induction false} PrefixAccepted(h: seq<Event>, k: nat)
    requires AcceptAll(NOTHING, h).Some? && k <= |h|
    ensures AcceptAll(NOTHING, h[..k]).Some?
    decreases |h|
  {
    if k < |h| {
      assert h[..|h| - 1][..k] == h[..k];
      PrefixAccepted(h[..|h| - 1], k);
    } else {
      assert h[..k] == h;
    }
  }

  lemma {:induction false} CallsAreInvocations(h: seq<Event>)
    requires AcceptAll(NOTHING, h).Some?
    ensures |AcceptAll(NOTHING, h).value.calls| == Invocations(h)
  {
    if h != [] { CallsAreInvocations(h[..|h| - 1]); }
  }

  lemma {:induction false} EffectiveWasLinearized(h: seq<Event>, o: nat)
    requires AcceptAll(NOTHING, h).Some? && o < |AcceptAll(NOTHING, h).value.calls|
    requires !AcceptAll(NOTHING, h).value.calls[o].Pending?
    ensures exists k :: 0 <= k < |h| && h[k] == Lin(o, AcceptAll(NOTHING, h).value.calls[o].resp)
  {
    if h != [] {
      var init, last := h[..|h| - 1], h[|h| - 1];
      var q := AcceptAll(NOTHING, init).value;
      if last.Lin? && last.o == o {
        assert h[|h| - 1] == Lin(o, last.resp);
      } else {
        assert o < |q.calls| && !q.calls[o].Pending?;
        EffectiveWasLinearized(init, o);
        var k :| 0 <= k < |init| && init[k] == Lin(o, q.calls[o].resp);
        assert h[k] == init[k];
      }
    }
  }

  lemma {:induction false} LinearizedStays(h: seq<Event>, i: nat)
    requires AcceptAll(NOTHING, h).Some? && i < |h| && h[i].Lin?
    ensures h[i].o < |AcceptAll(NOTHING, h).value.calls| && !AcceptAll(NOTHING, h).value.calls[h[i].o].Pending?
    decreases |h|
  {
    if i < |h| - 1 {
      assert h[..|h| - 1][i] == h[i];
      LinearizedStays(h[..|h| - 1], i);
    }
  }

  lemma EventAccepted(h: seq<Event>, k: nat)
    requires AcceptAll(NOTHING, h).Some? && k < |h|
    ensures AcceptAll(NOTHING, h[..k]).Some? && Accept(AcceptAll(NOTHING, h[..k]).value, h[k]).Some?
  {
    PrefixAccepted(h, k);
    PrefixAccepted(h, k + 1);
    assert h[..k + 1][..k] == h[..k] && h[..k + 1][k] == h[k];
  }

  /** No call takes effect twice. */
  lemma TakesEffectOnce(h: seq<Event>, i: nat, j: nat)
    requires AcceptAll(NOTHING, h).Some? && i < j < |h| && h[i].Lin? && h[j].Lin?
    ensures h[i].o != h[j].o
  {
    EventAccepted(h, j);
    assert h[..j][i] == h[i];
    LinearizedStays(h[..j], i);
  }

  lemma ReturnedWasLinearized(h: seq<Event>, i: nat, a: nat, ra: Resp)
    requires AcceptAll(NOTHING, h).Some? && i < |h| && h[i] == Res(a, ra)
    ensures exists k :: 0 <= k < i && h[k] == Lin(a, ra)
  {
    EventAccepted(h, i);
    EffectiveWasLinearized(h[..i], a);
    var k :| 0 <= k < |h[..i]| && h[..i][k] == Lin(a, ra);
    assert h[k] == Lin(a, ra);
  }

  lemma LinearizedWasInvoked(h: seq<Event>, j: nat, b: nat, rb: Resp)
    requires AcceptAll(NOTHING, h).Some? && j < |h| && h[j] == Lin(b, rb)
    ensures b < Invocations(h[..j])
  {
    EventAccepted(h, j);
    CallsAreInvocations(h[..j]);
  }

  /**
   * Real time is respected: if call `a` returned before call `b` was invoked, `a` took effect, with
   * the answer it returned, before it returned, and `b` after that.
   */
  lemma RealTimeRespected(h: seq<Event>, i: nat, j: nat, a: nat, ra: Resp, b: nat, rb: Resp)
    requires AcceptAll(NOTHING, h).Some? && i < |h| && j < |h|
    requires h[i] == Res(a, ra) && h[j] == Lin(b, rb) && b >= Invocations(h[..i])
    ensures exists k :: 0 <= k < i && h[k] == Lin(a, ra)
    ensures i < j
  {
    ReturnedWasLinearized(h, i, a, ra);
    LinearizedWasInvoked(h, j, b, rb);
    if j < i { InvocationsGrow(h, j, i); }
  }

  lemma {:induction false} InvocationsGrow(h: seq<Event>, j: nat, i: nat)
    requires j <= i <= |h|
    ensures Invocations(h[..j]) <= Invocations(h[..i])
    decreases i
  {
    if j < i {
      assert h[..i][..i - 1] == h[..i - 1];
      InvocationsGrow(h, j, i - 1);
    }
  }

  // ---------------------------------------------------------------- what was down and is up again

  function After(h: seq<Event>, i: nat): Atomic
    requires i <= |h| && AcceptAll(NOTHING, h[..i]).Some?
  {
    AcceptAll(NOTHING, h[..i]).value
  }

  lemma {:induction false} OpsStay(h: seq<Event>, i: nat, o: nat)
    requires AcceptAll(NOTHING, h).Some? && i <= |h|
    requires AcceptAll(NOTHING, h[..i]).Some? && o < |After(h, i).calls|
    ensures o < |AcceptAll(NOTHING, h).value.calls|
    ensures AcceptAll(NOTHING, h).value.calls[o].op == After(h, i).calls[o].op
    decreases |h|
  {
    if i < |h| {
      assert h[..|h| - 1][..i] == h[..i];
      OpsStay(h[..|h| - 1], i, o);
    } else {
      assert h[..i] == h;
    }
  }

  /** In history `h`, event `k` is an `op` taking effect with answer `r`. */
  predicate TakesEffect(h: seq<Event>, k: nat, op: Op, r: Resp)
    requires AcceptAll(NOTHING, h).Some?
  {
    && k < |h| && h[k].Lin? && h[k].resp == r
    && h[k].o < |AcceptAll(NOTHING, h).value.calls| && AcceptAll(NOTHING, h).value.calls[h[k].o].op == op
  }

  /** What an event does to the VMs, given which call takes effect. */
  lemma EventEffect(h: seq<Event>, k: nat)
    requires AcceptAll(NOTHING, h).Some? && k < |h|
    ensures AcceptAll(NOTHING, h[..k]).Some? && AcceptAll(NOTHING, h[..k + 1]).Some?
    ensures Accept(After(h, k), h[k]) == Some(After(h, k + 1))
    ensures h[k].Lin? ==>
      && h[k].o < |After(h, k).calls| && TakesEffect(h, k, After(h, k).calls[h[k].o].op, h[k].resp)
      && Effect(After(h, k).vms, After(h, k).calls[h[k].o].op, h[k].resp) == Some(After(h, k + 1).vms)
  {
    EventAccepted(h, k);
    PrefixAccepted(h, k + 1);
    assert h[..k + 1][..k] == h[..k] && h[..k + 1][k] == h[k];
    if h[k].Lin? { OpsStay(h, k, h[k].o); }
  }

  lemma EffectKeepsDown(vms: map<Id, bool>, op: Op, r: Resp, id: Id)
    requires Effect(vms, op, r).Some? && id in vms && !vms[id] && !(op == OpDelete(id) && r == Ok)
    ensures id in Effect(vms, op, r).value && !Effect(vms, op, r).value[id]
  {
  }

  lemma {:induction false} StaysDown(h: seq<Event>, i: nat, j: nat, id: Id)
    requires AcceptAll(NOTHING, h).Some? && i <= j <= |h| && AcceptAll(NOTHING, h[..i]).Some?
    requires id in After(h, i).vms && !After(h, i).vms[id]
    requires forall k :: i <= k < j ==> !TakesEffect(h, k, OpDelete(id), Ok)
    ensures AcceptAll(NOTHING, h[..j]).Some? && id in After(h, j).vms && !After(h, j).vms[id]
    decreases j
  {
    if i < j {
      StaysDown(h, i, j - 1, id);
      EventEffect(h, j - 1);
      if h[j - 1].Lin? {
        EffectKeepsDown(After(h, j - 1).vms, After(h, j - 1).calls[h[j - 1].o].op, h[j - 1].resp, id);
      }
      hide Effect, AcceptAll;
    }
  }

  /** Answers that say the VM does not run, or does. */
  predicate SaysDown(op: Op, r: Resp) {
    (op.OpGet? && r == Reports(false)) || (op.OpStart? && r == CannotRestart) || (op.OpStop? && r == Ok)
  }

  predicate SaysUp(op: Op, r: Resp) {
    (op.OpGet? && r == Reports(true)) || (op.OpStart? && r == Ok)
  }

  /**
   * A VM once reported, found or made not running is never reported running again, unless a deletion
   * of its id took effect in between.
   */
  lemma StoppedNeverReverts(h: seq<Event>, i: nat, j: nat, down: Op, r: Resp, up: Op, r': Resp)
    requires AcceptAll(NOTHING, h).Some? && i < j && down.id == up.id
    requires TakesEffect(h, i, down, r) && SaysDown(down, r)
    requires TakesEffect(h, j, up, r') && SaysUp(up, r')
    ensures exists k :: i < k < j && TakesEffect(h, k, OpDelete(down.id), Ok)
  {
    EventEffect(h, i);
    EventEffect(h, j);
    if forall k :: i < k < j ==> !TakesEffect(h, k, OpDelete(down.id), Ok) {
      StaysDown(h, i + 1, j, down.id);
    }
  }

  // -------------------------------------------------------------------- every reachable state

  /**
   * Under every interleaving: a stored STOPPED means a dead process, a stop that answered OK left
   * the process it found dead, at most one call is inside a write section and then nobody reads, and
   * every live process is registered or belongs to the creation under way.
   */
  lemma ReachableStates(steps: seq<Step>, n: nat, o: nat, p: nat)
    requires Exec(steps).Some? && o < |Exec(steps).value.calls| && p < |Exec(steps).value.calls|
    ensures var s := Exec(steps).value;
      && (n in s.recs && s.recs[n].stopped ==> n !in s.running)
      && (s.calls[o].op.OpStop? && (s.calls[o].pc == Done(Ok) || s.calls[o].pc == Returned(Ok)) ==>
            s.calls[o].target.Some? && s.calls[o].target.value !in s.running)
      && (HoldsWrite(s.calls[o]) && (HoldsWrite(s.calls[p]) || HoldsRead(s.calls[p])) ==> o == p)
      && (n in s.running && !Registered(s, n) ==>
            s.writer.Some? && s.writer.value < |s.calls| && Creates(s.calls[s.writer.value], n))
  {
    HistoryExplains(steps);
    var s := Exec(steps).value;
    hide Exec, HoldsWrite, HoldsRead, Creates;
    assert LockOk(s) && RecsOk(s) && CallOk(s, s.calls[o]);
    hide SocketsOk;
  }
}

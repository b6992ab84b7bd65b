/** The words the events of one VM can form. */
module Grammar {
  import opened GoStrings
  import opened EventStreams

  /** Every element is `t`. */
  predicate All(w: seq<EventType>, t: EventType) {
    forall i :: 0 <= i < |w| ==> w[i] == t
  }

  /** CREATED STARTED* STOPPED* DELETED. */
  ghost predicate Cycle(w: seq<EventType>) {
    exists m, n :: 1 <= m <= n < |w| && CycleAt(w, m, n)
  }

  predicate CycleAt(w: seq<EventType>, m: nat, n: nat)
    requires 1 <= m <= n < |w|
  {
    w[0] == EvCreated && All(w[1..m], EvStarted) && All(w[m..n], EvStopped) && n == |w| - 1 && w[n] == EvDeleted
  }

  /** (CREATED STARTED* STOPPED* DELETED)*. */
  ghost predicate Cycles(w: seq<EventType>)
    decreases |w|
  {
    w == [] || exists k :: 0 <= k < |w| && Cycles(w[..k]) && Cycle(w[k..])
  }

  /** `w` can be completed to a word of whole cycles. */
  ghost predicate Conforms(w: seq<EventType>) {
    exists v :: Cycles(w + v)
  }

  // -------------------------------------------------------------------------- as an automaton

  datatype Phase = Absent | Up | Halted

  function Delta(p: Phase, t: EventType): Option<Phase> {
    match (p, t)
    case (Absent, EvCreated) => Some(Up)
    case (Up, EvStarted) => Some(Up)
    case (Up, EvStopped) => Some(Halted)
    case (Halted, EvStopped) => Some(Halted)
    case (Up, EvDeleted) => Some(Absent)
    case (Halted, EvDeleted) => Some(Absent)
    case _ => None
  }

  function Reach(w: seq<EventType>): Option<Phase> {
    if w == [] then Some(Absent)
    else
      var p := Reach(w[..|w| - 1]);
      if p.None? then None else Delta(p.value, w[|w| - 1])
  }

  lemma {:induction false} ReachPrefix(w: seq<EventType>, k: nat)
    requires Reach(w).Some? && k <= |w|
    ensures Reach(w[..k]).Some?
    decreases |w|
  {
    if k < |w| {
      assert w[..|w| - 1][..k] == w[..k];
      ReachPrefix(w[..|w| - 1], k);
    } else {
      assert w[..k] == w;
    }
  }

  /** From the end of whole cycles, one more cycle leads through Up and Halted back to Absent. */
  lemma {:induction false} ReachThroughCycle(w: seq<EventType>, k: nat, m: nat, n: nat, j: nat)
    requires k <= |w| && Reach(w[..k]) == Some(Absent)
    requires 1 <= m <= n < |w[k..]| && CycleAt(w[k..], m, n) && 1 <= j <= |w| - k
    ensures Reach(w[..k + j]) ==
      Some(if j <= m then Up else if j <= n then Halted else Absent)
  {
    var u := w[..k + j];
    assert u[..|u| - 1] == w[..k + (j - 1)];
    assert u[|u| - 1] == w[k..][j - 1];
    if j > 1 {
      ReachThroughCycle(w, k, m, n, j - 1);
      if j - 1 < m { assert w[k..][1..m][j - 2] == EvStarted; }
      else if j - 1 < n { assert w[k..][m..n][j - 1 - m] == EvStopped; }
    }
  }

  lemma {:induction false} CyclesReachAbsent(w: seq<EventType>)
    requires Cycles(w)
    ensures Reach(w) == Some(Absent)
    decreases |w|
  {
    if w != [] {
      var k :| 0 <= k < |w| && Cycles(w[..k]) && Cycle(w[k..]);
      var m, n :| 1 <= m <= n < |w[k..]| && CycleAt(w[k..], m, n);
      CyclesReachAbsent(w[..k]);
      ReachThroughCycle(w, k, m, n, |w| - k);
      assert w[..k + (|w| - k)] == w;
    }
  }

  /** Where the automaton stands, in terms of the word: whole cycles and the one under way. */
  ghost predicate Shape(w: seq<EventType>, p: Phase, k: nat, m: nat) {
    && k <= |w| && Cycles(w[..k])
    && (p.Absent? ==> k == |w|)
    && (!p.Absent? ==> k < |w| && w[k] == EvCreated)
    && (!p.Absent? ==> k + 1 <= m <= |w| && All(w[k + 1..m], EvStarted) && All(w[m..], EvStopped))
    && (p.Up? ==> m == |w|)
  }

  lemma {:induction false} ReachShape(w: seq<EventType>) returns (k: nat, m: nat)
    requires Reach(w).Some?
    ensures Shape(w, Reach(w).value, k, m)
  {
    if w == [] {
      k, m := 0, 0;
    } else {
      var init, last := w[..|w| - 1], w[|w| - 1];
      k, m := ReachShape(init);
      assert init[..k] == w[..k];
      match last {
        case EvCreated =>
          m := |w|;
        case EvStarted =>
          m := |w|;
          assert w[k + 1..m] == init[k + 1..|init|] + [EvStarted];
        case EvStopped =>
          assert w[k + 1..m] == init[k + 1..m];
          assert w[m..] == init[m..] + [EvStopped];
        case EvDeleted =>
          assert w[k..][1..m - k] == init[k + 1..m];
          assert w[k..][m - k..|w| - k - 1] == init[m..];
          assert CycleAt(w[k..], m - k, |w| - k - 1);
          assert Cycles(w[..k]) && Cycle(w[k..]);
          k := |w|;
          assert w[..k] == w;
        case EvError =>
      }
    }
  }

  /** The automaton accepts exactly the words that can be completed to whole cycles. */
  lemma ReachExactlyConforming(w: seq<EventType>)
    ensures Reach(w).Some? <==> Conforms(w)
  {
    if Reach(w).Some? {
      var k, m := ReachShape(w);
      if Reach(w).value.Absent? {
        assert w + [] == w[..k];
        assert Cycles(w + []);
      } else {
        var v := w + [EvDeleted];
        assert v[..k] == w[..k];
        assert v[k..][1..m - k] == w[k + 1..m];
        assert v[k..][m - k..|v| - k - 1] == w[m..];
        assert CycleAt(v[k..], m - k, |v| - k - 1);
        assert Cycles(v);
      }
    }
    if Conforms(w) {
      var v :| Cycles(w + v);
      CyclesReachAbsent(w + v);
      ReachPrefix(w + v, |w|);
      assert (w + v)[..|w|] == w;
    }
  }
}

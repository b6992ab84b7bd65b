/** What a client of WatchVMEvents sees of the broadcasts. */
module Watchers {
  import opened GoStrings
  import opened EventStreams
  import opened HubProtocol
  import opened AgentServer

  function Only(vmId: Bytes, events: seq<VMEvent>): seq<VMEvent> {
    if events == [] then []
    else
      var last := events[|events| - 1];
      if vmId == [] || last.vmId == vmId then Only(vmId, events[..|events| - 1]) + [last]
      else Only(vmId, events[..|events| - 1])
  }

  /** Each event it asked for is kept as often as it came, any other is not. */
  lemma {:induction false} OnlyKeeps(vmId: Bytes, events: seq<VMEvent>, e: VMEvent)
    ensures multiset(Only(vmId, events))[e] == if vmId == [] || e.vmId == vmId then multiset(events)[e] else 0
    ensures Subsequence(Only(vmId, events), events)
  {
    if events != [] {
      var init, last := events[..|events| - 1], events[|events| - 1];
      OnlyKeeps(vmId, init, e);
      assert events == init + [last];
      SubsequenceAppend(Only(vmId, init), init, last);
    }
  }

  function Received(events: seq<VMEvent>): seq<Option<VMEvent>> {
    seq(|events|, i requires 0 <= i < |events| => Some(events[i]))
  }

  /** On events that are not nil, the handler's loop sends just those of the VM. */
  lemma {:induction false} MatchingIsOnly(vmId: Bytes, events: seq<VMEvent>)
    ensures Matching(vmId, Received(events)) == Received(Only(vmId, events))
  {
    if events != [] {
      var init, last := events[..|events| - 1], events[|events| - 1];
      MatchingIsOnly(vmId, init);
      assert Received(events)[..|events| - 1] == Received(init);
      assert Received(Only(vmId, init) + [last]) == Received(Only(vmId, init)) + [Some(last)];
    }
  }

  lemma {:induction false} PartOfSubsequence(a: seq<VMEvent>, rest: seq<VMEvent>, b: seq<VMEvent>)
    requires Subsequence(a + rest, b)
    ensures Subsequence(a, b)
    decreases |b|
  {
    if a != [] && b != [] {
      var init := b[..|b| - 1];
      if Subsequence(a + rest, init) {
        PartOfSubsequence(a, rest, init);
      } else if rest != [] {
        assert (a + rest)[..|a + rest| - 1] == a + rest[..|rest| - 1];
        PartOfSubsequence(a, rest[..|rest| - 1], init);
      } else {
        assert a + rest == a;
      }
    }
  }

  lemma {:induction false} FilterKeepsOrder(vmId: Bytes, a: seq<VMEvent>, b: seq<VMEvent>)
    requires Subsequence(a, b)
    ensures Subsequence(Only(vmId, a), Only(vmId, b))
    decreases |b|
  {
    if a != [] {
      var last, shorter := b[|b| - 1], b[..|b| - 1];
      if Subsequence(a, shorter) {
        FilterKeepsOrder(vmId, a, shorter);
        SubsequenceAppend(Only(vmId, a), Only(vmId, shorter), last);
      } else {
        FilterKeepsOrder(vmId, a[..|a| - 1], shorter);
        SubsequenceAppend(Only(vmId, a[..|a| - 1]), Only(vmId, shorter), last);
      }
    }
  }

  /** With one broadcast at a time, a client sees some of the events it asked for, in their order. */
  lemma ClientSeesInOrder(steps: seq<Step>, sid: string, vmId: Bytes)
    requires Exec(EMPTY, steps).Some? && OneAtATime(EMPTY, steps)
    requires !ReadLocked(Exec(EMPTY, steps).value) && sid in Exec(EMPTY, steps).value.subs
    ensures var h := Exec(EMPTY, steps).value;
      && h.subs[sid] < |h.watchers|
      && var c := h.watchers[h.subs[sid]];
      && Subsequence(Only(vmId, c.received), Only(vmId, EventsSince(h.casts, c.since)))
      && Matching(vmId, Received(c.received)) == Received(Only(vmId, c.received))
  {
    hide Exec, ReadLocked, OneAtATime, EventsSince;
    DeliveryIsInOrder(steps, sid);
    var h := Exec(EMPTY, steps).value;
    var c := h.watchers[h.subs[sid]];
    PartOfSubsequence(c.received, c.queue, EventsSince(h.casts, c.since));
    FilterKeepsOrder(vmId, c.received, EventsSince(h.casts, c.since));
    MatchingIsOnly(vmId, c.received);
  }

  /**
   * What WatchVMEvents sends of what its channel yielded: the events asked for among those it took, and
   * so some of the broadcasts asked for, in their order; and it does not end in a panic.
   */
  lemma ClientIsSentInOrder(steps: seq<Step>, sid: string, vmId: Bytes,
                            sent: seq<Option<VMEvent>>, taken: nat, end: WatchEnd)
    requires Exec(EMPTY, steps).Some? && OneAtATime(EMPTY, steps)
    requires !ReadLocked(Exec(EMPTY, steps).value) && sid in Exec(EMPTY, steps).value.subs
    requires Exec(EMPTY, steps).value.subs[sid] < |Exec(EMPTY, steps).value.watchers|
    requires Streamed(vmId, Received(Exec(EMPTY, steps).value.watchers[Exec(EMPTY, steps).value.subs[sid]].received), sent, taken, end)
    ensures var h := Exec(EMPTY, steps).value; var c := h.watchers[h.subs[sid]];
      && taken <= |c.received| && !end.Panicked?
      && sent == Received(Only(vmId, c.received[..taken]))
      && Subsequence(Only(vmId, c.received[..taken]), Only(vmId, EventsSince(h.casts, c.since)))
  {
    hide Exec, ReadLocked, OneAtATime, EventsSince;
    DeliveryIsInOrder(steps, sid);
    var h := Exec(EMPTY, steps).value;
    var c := h.watchers[h.subs[sid]];
    var part := c.received[..taken];
    assert Received(c.received)[..taken] == Received(part);
    MatchingIsOnly(vmId, part);
    assert part + (c.received[taken..] + c.queue) == c.received + c.queue;
    PartOfSubsequence(part, c.received[taken..] + c.queue, EventsSince(h.casts, c.since));
    FilterKeepsOrder(vmId, part, EventsSince(h.casts, c.since));
  }
}

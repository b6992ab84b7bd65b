/**
 * The event stream in small steps: any number of broadcasts walk the map at once under the read
 * lock, watchers receive at any time, and Unsubscribe closes and then deletes under the write lock.
 */
module HubProtocol {
  import opened GoStrings
  import opened EventStreams

  datatype Phase = Watching | Leaving | Gone

  /** One call of Subscribe: its watcher, its channel, and the channel's history. */
  datatype Watcher = Watcher(
    sid: string,
    phase: Phase,
    queue: seq<VMEvent>,
    closed: bool,
    offered: seq<VMEvent>,   // every attempted send
    received: seq<VMEvent>,
    drops: nat,
    since: nat)              // broadcasts begun before the subscription

  /** One broadcast and the subscribers its loop has not reached yet. */
  datatype Broadcasting = Broadcasting(event: VMEvent, todo: set<string>, active: bool)

  datatype Hub = Hub(
    subs: map<string, nat>,
    watchers: seq<Watcher>,
    casts: seq<Broadcasting>,
    writer: Option<nat>,     // the watcher between closing and deleting
    panicked: bool,          // a send on, or a second close of, a closed channel
    nilReceived: bool)       // a watcher received from a closed channel

  const EMPTY := Hub(map[], [], [], None, false, false)

  datatype Step =
    | Subscribe(sid: string)
    | CloseChannel(w: nat)
    | DeleteEntry(w: nat)
    | Begin(event: VMEvent)
    | Send(b: nat, sid: string)
    | End(b: nat)
    | Receive(w: nat)
    | ReceiveNil(w: nat)

  ghost predicate ReadLocked(h: Hub) {
    exists i :: 0 <= i < |h.casts| && h.casts[i].active
  }

  ghost predicate Free(h: Hub) { h.writer.None? && !ReadLocked(h) }

  ghost predicate Enabled(h: Hub, s: Step) {
    match s
    case Subscribe(_) => Free(h)
    case CloseChannel(w) => Free(h) && w < |h.watchers| && h.watchers[w].phase.Watching?
    case DeleteEntry(w) => h.writer == Some(w) && w < |h.watchers|
    case Begin(_) => h.writer.None?
    case Send(b, sid) => b < |h.casts| && h.casts[b].active && sid in h.casts[b].todo
      && sid in h.subs && h.subs[sid] < |h.watchers|
    case End(b) => b < |h.casts| && h.casts[b].active && h.casts[b].todo == {}
    case Receive(w) => w < |h.watchers| && h.watchers[w].phase.Watching? && h.watchers[w].queue != []
    case ReceiveNil(w) =>
      w < |h.watchers| && h.watchers[w].phase.Watching? && h.watchers[w].queue == [] && h.watchers[w].closed
  }

  /** A send attempt on one channel. */
  function Attempt(c: Watcher, e: VMEvent): Watcher {
    c.(queue := Offer(c.queue, e),
       offered := c.offered + [e],
       drops := if |c.queue| < CAPACITY then c.drops else c.drops + 1)
  }

  function Next(h: Hub, s: Step): Hub
    requires Enabled(h, s)
  {
    match s
    case Subscribe(sid) =>
      h.(subs := h.subs[sid := |h.watchers|],
         watchers := h.watchers + [Watcher(sid, Watching, [], false, [], [], 0, |h.casts|)])
    case CloseChannel(w) =>
      var sid := h.watchers[w].sid;
      if sid in h.subs && h.subs[sid] < |h.watchers| then
        var leaving := h.watchers[w := h.watchers[w].(phase := Leaving)];
        var c := h.subs[sid];
        h.(watchers := leaving[c := leaving[c].(closed := true)],
           writer := Some(w),
           panicked := h.panicked || leaving[c].closed)
      else
        h.(watchers := h.watchers[w := h.watchers[w].(phase := Gone)])
    case DeleteEntry(w) =>
      h.(subs := h.subs - {h.watchers[w].sid},
         watchers := h.watchers[w := h.watchers[w].(phase := Gone)],
         writer := None)
    case Begin(e) =>
      h.(casts := h.casts + [Broadcasting(e, h.subs.Keys, true)])
    case Send(b, sid) =>
      var c := h.subs[sid];
      h.(watchers := h.watchers[c := Attempt(h.watchers[c], h.casts[b].event)],
         casts := h.casts[b := h.casts[b].(todo := h.casts[b].todo - {sid})],
         panicked := h.panicked || h.watchers[c].closed)
    case End(b) =>
      h.(casts := h.casts[b := h.casts[b].(active := false)])
    case Receive(w) =>
      h.(watchers := h.watchers[w := h.watchers[w].(
           queue := h.watchers[w].queue[1..],
           received := h.watchers[w].received + [h.watchers[w].queue[0]])])
    case ReceiveNil(_) =>
      h.(nilReceived := true)
  }

  /** The state after a run, if every step of it was possible. */
  ghost function Exec(h: Hub, steps: seq<Step>): Option<Hub> {
    if steps == [] then Some(h)
    else
      var before := Exec(h, steps[..|steps| - 1]);
      if before.Some? && Enabled(before.value, steps[|steps| - 1])
      then Some(Next(before.value, steps[|steps| - 1])) else None
  }

  // ----------------------------------------------------------------------- what always holds

  ghost predicate Subsequence(a: seq<VMEvent>, b: seq<VMEvent>)
    decreases |b|
  {
    if a == [] then true
    else if b == [] then false
    else
      || (a[|a| - 1] == b[|b| - 1] && Subsequence(a[..|a| - 1], b[..|b| - 1]))
      || Subsequence(a, b[..|b| - 1])
  }

  /** Every attempt was received, is queued, or was dropped, and order is kept. */
  ghost predicate Accounted(c: Watcher) {
    && |c.queue| <= CAPACITY
    && |c.offered| == |c.received| + |c.queue| + c.drops
    && Subsequence(c.received + c.queue, c.offered)
  }

  /** The events begun since `since` whose loop has reached `sid`. */
  ghost function Reached(casts: seq<Broadcasting>, since: nat, sid: string): multiset<VMEvent> {
    if |casts| <= since then multiset{}
    else
      var last := casts[|casts| - 1];
      Reached(casts[..|casts| - 1], since, sid) + if sid in last.todo then multiset{} else multiset{last.event}
  }

  /** The registered channel of `sid` is its own, is open outside Unsubscribe, and was offered every
      event since its subscription exactly once, but for the loops that have yet to reach it. */
  ghost predicate SubOk(h: Hub, sid: string)
    requires sid in h.subs
  {
    var c := h.subs[sid];
    && c < |h.watchers|
    && h.watchers[c].sid == sid
    && h.watchers[c].since <= |h.casts|
    && (h.watchers[c].closed <==> h.writer.Some? && h.writer.value < |h.watchers| && h.watchers[h.writer.value].sid == sid)
    && multiset(h.watchers[c].offered) == Reached(h.casts, h.watchers[c].since, sid)
  }

  ghost predicate CastOk(h: Hub, i: nat)
    requires i < |h.casts|
  {
    forall sid :: sid in h.casts[i].todo ==>
      h.casts[i].active && sid in h.subs && h.subs[sid] < |h.watchers| && h.watchers[h.subs[sid]].since <= i
  }

  ghost predicate WriterOk(h: Hub) {
    h.writer.Some? ==>
      && h.writer.value < |h.watchers|
      && h.watchers[h.writer.value].phase.Leaving?
      && h.watchers[h.writer.value].sid in h.subs
      && !ReadLocked(h)
  }

  ghost predicate HubInv(h: Hub) {
    && !h.panicked
    && WriterOk(h)
    && (forall sid :: sid in h.subs ==> SubOk(h, sid))
    && (forall i :: 0 <= i < |h.casts| ==> CastOk(h, i))
    && (forall w :: 0 <= w < |h.watchers| ==> Accounted(h.watchers[w]))
  }

  lemma SubsequenceAppend(a: seq<VMEvent>, b: seq<VMEvent>, e: VMEvent)
    requires Subsequence(a, b)
    ensures Subsequence(a + [e], b + [e]) && Subsequence(a, b + [e])
  {
    assert (a + [e])[..|a|] == a && (b + [e])[..|b|] == b;
  }

  lemma AttemptAccounted(c: Watcher, e: VMEvent)
    requires Accounted(c)
    ensures Accounted(Attempt(c, e))
    ensures Attempt(c, e).queue == if |c.queue| < 100 then c.queue + [e] else c.queue
    ensures Attempt(c, e).drops == if |c.queue| < 100 then c.drops else c.drops + 1
  {
    SubsequenceAppend(c.received + c.queue, c.offered, e);
    assert c.received + (c.queue + [e]) == (c.received + c.queue) + [e];
  }

  /** `c` and `c'` are the same broadcasts, as far as `sid` goes, outside position `b`. */
  predicate SameElsewhere(c: seq<Broadcasting>, c': seq<Broadcasting>, sid: string, b: nat) {
    && |c| == |c'|
    && forall i :: 0 <= i < |c| ==>
         c[i].event == c'[i].event && (i != b ==> (sid in c[i].todo <==> sid in c'[i].todo))
  }

  lemma {:induction false} ReachedAgrees(c: seq<Broadcasting>, c': seq<Broadcasting>, since: nat, sid: string)
    requires SameElsewhere(c, c', sid, |c|)
    ensures Reached(c, since, sid) == Reached(c', since, sid)
    decreases |c|
  {
    if |c| > since {
      var i, i' := c[..|c| - 1], c'[..|c| - 1];
      assert SameElsewhere(i, i', sid, |i|);
      ReachedAgrees(i, i', since, sid);
    }
  }

  lemma {:induction false} ReachedAdvances(c: seq<Broadcasting>, c': seq<Broadcasting>, since: nat, sid: string, b: nat)
    requires SameElsewhere(c, c', sid, b) && b < |c| && sid in c[b].todo && sid !in c'[b].todo && since <= b
    ensures Reached(c', since, sid) == Reached(c, since, sid) + multiset{c[b].event}
    decreases |c|
  {
    var n := |c| - 1;
    if b == n {
      assert SameElsewhere(c[..n], c'[..n], sid, n);
      ReachedAgrees(c[..n], c'[..n], since, sid);
    } else {
      assert SameElsewhere(c[..n], c'[..n], sid, b);
      ReachedAdvances(c[..n], c'[..n], since, sid, b);
    }
  }

  lemma SendKeepsSub(h: Hub, b: nat, sid: string, x: string)
    requires Enabled(h, Send(b, sid)) && x in h.subs && SubOk(h, x) && SubOk(h, sid) && CastOk(h, b)
    ensures SubOk(Next(h, Send(b, sid)), x)
  {
    var h', c := Next(h, Send(b, sid)), h.subs[sid];
    if x == sid {
      ReachedAdvances(h.casts, h'.casts, h.watchers[c].since, x, b);
      assert multiset(h'.watchers[c].offered) == multiset(h.watchers[c].offered) + multiset{h.casts[b].event};
    } else {
      ReachedAgrees(h.casts, h'.casts, h.watchers[h.subs[x]].since, x);
      assert h.subs[x] != c;
    }
  }

  lemma SendKeepsCast(h: Hub, b: nat, sid: string, i: nat)
    requires Enabled(h, Send(b, sid)) && i < |h.casts| && CastOk(h, i)
    ensures CastOk(Next(h, Send(b, sid)), i)
  {
  }

  lemma SendKeepsInv(h: Hub, b: nat, sid: string)
    requires HubInv(h) && Enabled(h, Send(b, sid))
    ensures HubInv(Next(h, Send(b, sid)))
  {
    var h', c := Next(h, Send(b, sid)), h.subs[sid];
    assert ReadLocked(h);
    assert !h.watchers[c].closed by { assert SubOk(h, sid); }
    hide SubOk, CastOk, Accounted, ReadLocked;
    forall x | x in h'.subs ensures SubOk(h', x) {
      SendKeepsSub(h, b, sid, x);
    }
    forall i | 0 <= i < |h'.casts| ensures CastOk(h', i) {
      SendKeepsCast(h, b, sid, i);
    }
    forall w | 0 <= w < |h'.watchers| ensures Accounted(h'.watchers[w]) {
      AttemptAccounted(h.watchers[c], h.casts[b].event);
    }
  }

  lemma EndKeepsInv(h: Hub, b: nat)
    requires HubInv(h) && Enabled(h, End(b))
    ensures HubInv(Next(h, End(b)))
  {
    var h' := Next(h, End(b));
    assert ReadLocked(h);
    forall x | x in h'.subs ensures SubOk(h', x) {
      assert SubOk(h, x);
      ReachedAgrees(h.casts, h'.casts, h.watchers[h.subs[x]].since, x);
    }
    forall i | 0 <= i < |h'.casts| ensures CastOk(h', i) {
      assert CastOk(h, i);
    }
  }

  lemma BeginKeepsInv(h: Hub, e: VMEvent)
    requires HubInv(h) && Enabled(h, Begin(e))
    ensures HubInv(Next(h, Begin(e)))
  {
    var h' := Next(h, Begin(e));
    assert h'.casts[..|h.casts|] == h.casts;
    forall x | x in h'.subs ensures SubOk(h', x) {
      assert SubOk(h, x);
    }
    forall i | 0 <= i < |h'.casts| ensures CastOk(h', i) {
      if i < |h.casts| { assert CastOk(h, i); }
      else { forall x | x in h.subs ensures h.watchers[h.subs[x]].since <= i { assert SubOk(h, x); } }
    }
  }

  /** While nobody holds the read lock no loop has anything left to do. */
  lemma FreeMeansDone(h: Hub, i: nat)
    requires HubInv(h) && !ReadLocked(h) && i < |h.casts|
    ensures h.casts[i].todo == {}
  {
    assert CastOk(h, i);
  }

  lemma SubscribeKeepsInv(h: Hub, sid: string)
    requires HubInv(h) && Enabled(h, Subscribe(sid))
    ensures HubInv(Next(h, Subscribe(sid)))
  {
    var h' := Next(h, Subscribe(sid));
    forall x | x in h'.subs ensures SubOk(h', x) {
      if x != sid { assert SubOk(h, x); }
    }
    forall i | 0 <= i < |h'.casts| ensures CastOk(h', i) {
      FreeMeansDone(h, i);
    }
    forall w | 0 <= w < |h'.watchers| ensures Accounted(h'.watchers[w]) {
      if w == |h.watchers| { assert h'.watchers[w].received + h'.watchers[w].queue == []; }
    }
  }

  /** The watchers' histories after a close. */
  lemma CloseChangesLittle(h: Hub, w: nat)
    requires HubInv(h) && Enabled(h, CloseChannel(w))
    ensures var h' := Next(h, CloseChannel(w));
      && h'.subs == h.subs && h'.casts == h.casts && |h'.watchers| == |h.watchers| && !h'.panicked
      && forall v :: 0 <= v < |h.watchers| ==>
           && h'.watchers[v] == h.watchers[v].(phase := h'.watchers[v].phase, closed := h'.watchers[v].closed)
           && (h'.watchers[v].closed <==> (
                h.watchers[v].closed || (h.watchers[w].sid in h.subs && v == h.subs[h.watchers[w].sid])))
  {
    var sid := h.watchers[w].sid;
    if sid in h.subs { assert SubOk(h, sid); }
  }

  lemma CloseKeepsInv(h: Hub, w: nat)
    requires HubInv(h) && Enabled(h, CloseChannel(w))
    ensures HubInv(Next(h, CloseChannel(w)))
  {
    var h' := Next(h, CloseChannel(w));
    var sid := h.watchers[w].sid;
    CloseChangesLittle(h, w);
    assert sid in h.subs ==> SubOk(h, sid);
    assert ReadLocked(h') ==> ReadLocked(h);
    assert WriterOk(h');
    forall x | x in h'.subs ensures SubOk(h', x) {
      assert SubOk(h, x);
    }
    forall i | 0 <= i < |h'.casts| ensures CastOk(h', i) {
      FreeMeansDone(h, i);
    }
    forall v | 0 <= v < |h'.watchers| ensures Accounted(h'.watchers[v]) {
      assert Accounted(h.watchers[v]);
    }
  }

  lemma DeleteKeepsInv(h: Hub, w: nat)
    requires HubInv(h) && Enabled(h, DeleteEntry(w))
    ensures HubInv(Next(h, DeleteEntry(w)))
  {
    var h' := Next(h, DeleteEntry(w));
    forall x | x in h'.subs ensures SubOk(h', x) {
      assert SubOk(h, x);
    }
    forall i | 0 <= i < |h'.casts| ensures CastOk(h', i) {
      FreeMeansDone(h, i);
    }
  }

  lemma ReceiveKeepsInv(h: Hub, w: nat)
    requires HubInv(h) && Enabled(h, Receive(w))
    ensures HubInv(Next(h, Receive(w)))
  {
    var h' := Next(h, Receive(w));
    ReceiveAccounted(h.watchers[w]);
    SameOffersKeepSubs(h, h');
  }

  /** A step that changes only what is queued and received. */
  lemma SameOffersKeepSubs(h: Hub, h': Hub)
    requires WriterOk(h) && h' == h.(watchers := h'.watchers) && |h'.watchers| == |h.watchers|
    requires forall v :: 0 <= v < |h.watchers| ==>
      h'.watchers[v] == h.watchers[v].(queue := h'.watchers[v].queue, received := h'.watchers[v].received)
    ensures WriterOk(h')
    ensures (forall sid :: sid in h.subs ==> SubOk(h, sid)) ==> (forall sid :: sid in h'.subs ==> SubOk(h', sid))
    ensures (forall i :: 0 <= i < |h.casts| ==> CastOk(h, i)) ==> (forall i :: 0 <= i < |h'.casts| ==> CastOk(h', i))
  {
    forall sid | sid in h'.subs && SubOk(h, sid) ensures SubOk(h', sid) {
    }
    forall i | 0 <= i < |h'.casts| && CastOk(h, i) ensures CastOk(h', i) {
    }
  }

  lemma ReceiveAccounted(c: Watcher)
    requires Accounted(c) && c.queue != []
    ensures Accounted(c.(queue := c.queue[1..], received := c.received + [c.queue[0]]))
  {
    assert (c.received + [c.queue[0]]) + c.queue[1..] == c.received + c.queue;
  }

  lemma StepKeepsHubInv(h: Hub, s: Step)
    requires HubInv(h) && Enabled(h, s)
    ensures HubInv(Next(h, s))
  {
    match s {
      case Subscribe(sid) => SubscribeKeepsInv(h, sid);
      case CloseChannel(w) => CloseKeepsInv(h, w);
      case DeleteEntry(w) => DeleteKeepsInv(h, w);
      case Begin(e) => BeginKeepsInv(h, e);
      case Send(b, sid) => SendKeepsInv(h, b, sid);
      case End(b) => EndKeepsInv(h, b);
      case Receive(w) => ReceiveKeepsInv(h, w);
      case ReceiveNil(_) =>
        forall x | x in h.subs ensures SubOk(Next(h, s), x) { assert SubOk(h, x); }
        forall i | 0 <= i < |h.casts| ensures CastOk(Next(h, s), i) { assert CastOk(h, i); }
    }
  }

  lemma {:induction false} RunKeepsHubInv(steps: seq<Step>)
    requires Exec(EMPTY, steps).Some?
    ensures HubInv(Exec(EMPTY, steps).value)
  {
    if steps != [] {
      var init, last := steps[..|steps| - 1], steps[|steps| - 1];
      RunKeepsHubInv(init);
      StepKeepsHubInv(Exec(EMPTY, init).value, last);
    }
  }

  /** Under every interleaving no send hits a closed channel and no channel is closed twice. */
  lemma ChannelsAreNeverMisused(steps: seq<Step>)
    requires Exec(EMPTY, steps).Some?
    ensures !Exec(EMPTY, steps).value.panicked
  {
    RunKeepsHubInv(steps);
  }

  /**
   * Conservation per subscription: attempts are received, queued or dropped; the first two keep the
   * order of the attempts; and, with every loop past it, a registered subscriber was offered each
   * event begun since it subscribed exactly once.
   */
  lemma DeliveryIsAccounted(steps: seq<Step>, w: nat)
    requires Exec(EMPTY, steps).Some? && w < |Exec(EMPTY, steps).value.watchers|
    ensures var h := Exec(EMPTY, steps).value; var c := h.watchers[w];
      && |c.queue| <= 100
      && |c.offered| == |c.received| + |c.queue| + c.drops
      && Subsequence(c.received + c.queue, c.offered)
      && (c.sid in h.subs && h.subs[c.sid] == w ==> multiset(c.offered) == Reached(h.casts, c.since, c.sid))
  {
    RunKeepsHubInv(steps);
    var h := Exec(EMPTY, steps).value;
    assert Accounted(h.watchers[w]);
    if h.watchers[w].sid in h.subs { assert SubOk(h, h.watchers[w].sid); }
  }

  // ------------------------------------------------------------------ one broadcast at a time

  /** The events of `casts` from `since` on. */
  function EventsSince(casts: seq<Broadcasting>, since: nat): seq<VMEvent> {
    if |casts| <= since then [] else EventsSince(casts[..|casts| - 1], since) + [casts[|casts| - 1].event]
  }

  /** A run in which no broadcast begins before the previous one has ended. */
  ghost predicate OneAtATime(h: Hub, steps: seq<Step>) {
    forall i :: 0 <= i < |steps| && steps[i].Begin? && Exec(h, steps[..i]).Some? ==> !ReadLocked(Exec(h, steps[..i]).value)
  }

  /** What the registered channel of `sid` was offered, in order. */
  ghost predicate InOrder(h: Hub, sid: string)
    requires sid in h.subs && h.subs[sid] < |h.watchers|
  {
    var c, n := h.watchers[h.subs[sid]], |h.casts|;
    if n > 0 && sid in h.casts[n - 1].todo then c.offered == EventsSince(h.casts[..n - 1], c.since)
    else c.offered == EventsSince(h.casts, c.since)
  }

  /** Only the newest broadcast can be under way. */
  ghost predicate OrderInv(h: Hub) {
    && (forall i :: 0 <= i < |h.casts| - 1 ==> !h.casts[i].active)
    && (forall sid :: sid in h.subs && h.subs[sid] < |h.watchers| ==> InOrder(h, sid))
  }

  lemma {:induction false} EventsIgnoreProgress(casts: seq<Broadcasting>, casts': seq<Broadcasting>, since: nat)
    requires |casts| == |casts'| && forall i :: 0 <= i < |casts| ==> casts[i].event == casts'[i].event
    ensures EventsSince(casts, since) == EventsSince(casts', since)
    decreases |casts|
  {
    if |casts| > since {
      EventsIgnoreProgress(casts[..|casts| - 1], casts'[..|casts| - 1], since);
    }
  }

  lemma SendKeepsInOrder(h: Hub, b: nat, sid: string, x: string)
    requires Enabled(h, Send(b, sid)) && b == |h.casts| - 1 && h.watchers[h.subs[sid]].since <= b
    requires x in h.subs && h.subs[x] < |h.watchers| && InOrder(h, x) && (h.subs[x] == h.subs[sid] ==> x == sid)
    ensures InOrder(Next(h, Send(b, sid)), x)
  {
    var h' := Next(h, Send(b, sid));
    var n := |h.casts|;
    assert h'.casts[..n - 1] == h.casts[..n - 1];
    EventsIgnoreProgress(h.casts, h'.casts, h.watchers[h.subs[x]].since);
  }

  lemma SendKeepsOrder(h: Hub, b: nat, sid: string)
    requires HubInv(h) && OrderInv(h) && Enabled(h, Send(b, sid))
    ensures OrderInv(Next(h, Send(b, sid)))
  {
    var h' := Next(h, Send(b, sid));
    assert CastOk(h, b) && SubOk(h, sid);
    assert b == |h.casts| - 1;
    hide InOrder, Accounted, Reached, EventsSince;
    forall x | x in h'.subs && h'.subs[x] < |h'.watchers| ensures InOrder(h', x) {
      assert SubOk(h, x);
      SendKeepsInOrder(h, b, sid, x);
    }
  }

  lemma EndKeepsOrder(h: Hub, b: nat)
    requires HubInv(h) && OrderInv(h) && Enabled(h, End(b))
    ensures OrderInv(Next(h, End(b)))
  {
    hide HubInv;
    var h', n := Next(h, End(b)), |h.casts|;
    assert b == n - 1;
    assert h'.casts[..n - 1] == h.casts[..n - 1];
    forall x | x in h'.subs && h'.subs[x] < |h'.watchers| ensures InOrder(h', x) {
      assert InOrder(h, x);
      EventsIgnoreProgress(h.casts, h'.casts, h.watchers[h.subs[x]].since);
    }
  }

  lemma BeginKeepsOrder(h: Hub, e: VMEvent)
    requires HubInv(h) && OrderInv(h) && Enabled(h, Begin(e)) && !ReadLocked(h)
    ensures OrderInv(Next(h, Begin(e)))
  {
    var h', n := Next(h, Begin(e)), |h.casts|;
    assert h'.casts[..n] == h.casts;
    if n > 0 { FreeMeansDone(h, n - 1); }
    forall x | x in h'.subs && h'.subs[x] < |h'.watchers| ensures InOrder(h', x) {
      assert InOrder(h, x);
    }
  }

  lemma SubscribeKeepsOrder(h: Hub, sid: string)
    requires HubInv(h) && OrderInv(h) && Enabled(h, Subscribe(sid))
    ensures OrderInv(Next(h, Subscribe(sid)))
  {
    var h', n := Next(h, Subscribe(sid)), |h.casts|;
    if n > 0 { FreeMeansDone(h, n - 1); }
    forall x | x in h'.subs && h'.subs[x] < |h'.watchers| ensures InOrder(h', x) {
      if x != sid { assert InOrder(h, x) && SubOk(h, x); }
    }
  }

  lemma SameOffersKeepOrder(h: Hub, h': Hub)
    requires OrderInv(h) && h'.casts == h.casts && |h'.watchers| == |h.watchers|
    requires forall x :: x in h'.subs ==> x in h.subs && h'.subs[x] == h.subs[x]
    requires forall w :: 0 <= w < |h.watchers| ==>
      h'.watchers[w].offered == h.watchers[w].offered && h'.watchers[w].since == h.watchers[w].since
    ensures OrderInv(h')
  {
    forall x | x in h'.subs && h'.subs[x] < |h'.watchers| ensures InOrder(h', x) {
      assert InOrder(h, x);
    }
  }

  /** Steps of a watcher leave what was offered, and the broadcasts, alone. */
  lemma WatcherStepKeepsOrder(h: Hub, s: Step)
    requires HubInv(h) && OrderInv(h) && Enabled(h, s)
    requires s.CloseChannel? || s.DeleteEntry? || s.Receive? || s.ReceiveNil?
    ensures OrderInv(Next(h, s))
  {
    hide OrderInv;
    if s.CloseChannel? { CloseChangesLittle(h, s.w); }
    hide HubInv;
    SameOffersKeepOrder(h, Next(h, s));
  }

  lemma StepKeepsOrder(h: Hub, s: Step)
    requires HubInv(h) && OrderInv(h) && Enabled(h, s)
    requires s.Begin? ==> !ReadLocked(h)
    ensures OrderInv(Next(h, s))
  {
    match s {
      case Send(b, sid) => SendKeepsOrder(h, b, sid);
      case End(b) => EndKeepsOrder(h, b);
      case Begin(e) => BeginKeepsOrder(h, e);
      case Subscribe(sid) => SubscribeKeepsOrder(h, sid);
      case _ => WatcherStepKeepsOrder(h, s);
    }
  }

  lemma {:induction false} RunKeepsOrder(steps: seq<Step>)
    requires Exec(EMPTY, steps).Some? && OneAtATime(EMPTY, steps)
    ensures OrderInv(Exec(EMPTY, steps).value)
  {
    if steps != [] {
      var init, last := steps[..|steps| - 1], steps[|steps| - 1];
      assert OneAtATime(EMPTY, init) by {
        forall i | 0 <= i < |init| && init[i].Begin? && Exec(EMPTY, init[..i]).Some?
          ensures !ReadLocked(Exec(EMPTY, init[..i]).value)
        {
          assert init[..i] == steps[..i] && init[i] == steps[i];
        }
      }
      RunKeepsOrder(init);
      RunKeepsHubInv(init);
      StepKeepsOrder(Exec(EMPTY, init).value, last);
    }
  }

  /**
   * With one broadcaster at a time, what a registered subscriber has received and queued is, in
   * order, some of the broadcasts since it subscribed, and the missing ones are the counted drops.
   */
  lemma DeliveryIsInOrder(steps: seq<Step>, sid: string)
    requires Exec(EMPTY, steps).Some? && OneAtATime(EMPTY, steps)
    requires !ReadLocked(Exec(EMPTY, steps).value) && sid in Exec(EMPTY, steps).value.subs
    ensures var h := Exec(EMPTY, steps).value;
      && h.subs[sid] < |h.watchers|
      && var c := h.watchers[h.subs[sid]];
      && Subsequence(c.received + c.queue, EventsSince(h.casts, c.since))
      && |EventsSince(h.casts, c.since)| == |c.received| + |c.queue| + c.drops
  {
    RunKeepsHubInv(steps);
    RunKeepsOrder(steps);
    var h := Exec(EMPTY, steps).value;
    assert SubOk(h, sid) && InOrder(h, sid);
    assert Accounted(h.watchers[h.subs[sid]]);
    if |h.casts| > 0 { FreeMeansDone(h, |h.casts| - 1); }
  }

  // ------------------------------------------------------------ who may see a closed channel

  /** Some watcher that has not left goes by `sid`. */
  predicate Held(h: Hub, sid: string) {
    exists w :: 0 <= w < |h.watchers| && h.watchers[w].sid == sid && !h.watchers[w].phase.Gone?
  }

  /** Everyone who has not left owns its own entry, and its channel is open while it watches. */
  ghost predicate OwnEntries(h: Hub) {
    && !h.nilReceived
    && forall w :: 0 <= w < |h.watchers| && !h.watchers[w].phase.Gone? ==>
         && h.watchers[w].sid in h.subs && h.subs[h.watchers[w].sid] == w
         && (h.watchers[w].phase.Watching? ==> !h.watchers[w].closed)
         && (h.watchers[w].phase.Leaving? ==> h.writer == Some(w))
  }

  lemma CloseKeepsOwnEntries(h: Hub, w: nat)
    requires HubInv(h) && OwnEntries(h) && Enabled(h, CloseChannel(w))
    ensures OwnEntries(Next(h, CloseChannel(w)))
  {
    var sid := h.watchers[w].sid;
    assert h.subs[sid] == w && SubOk(h, sid);
  }

  lemma DeleteKeepsOwnEntries(h: Hub, w: nat)
    requires WriterOk(h) && OwnEntries(h) && Enabled(h, DeleteEntry(w))
    ensures OwnEntries(Next(h, DeleteEntry(w)))
  {
  }

  lemma SubscribeKeepsOwnEntries(h: Hub, sid: string)
    requires OwnEntries(h) && Enabled(h, Subscribe(sid)) && !Held(h, sid)
    ensures OwnEntries(Next(h, Subscribe(sid)))
  {
  }

  lemma OtherStepsKeepOwnEntries(h: Hub, s: Step)
    requires OwnEntries(h) && Enabled(h, s)
    requires s.Begin? || s.Send? || s.End? || s.Receive? || s.ReceiveNil?
    ensures OwnEntries(Next(h, s))
  {
  }

  lemma StepKeepsOwnEntries(h: Hub, s: Step)
    requires HubInv(h) && OwnEntries(h) && Enabled(h, s)
    requires s.Subscribe? ==> !Held(h, s.sid)
    ensures OwnEntries(Next(h, s))
  {
    match s {
      case CloseChannel(w) => CloseKeepsOwnEntries(h, w);
      case DeleteEntry(w) => DeleteKeepsOwnEntries(h, w);
      case Subscribe(sid) => SubscribeKeepsOwnEntries(h, sid);
      case _ => OtherStepsKeepOwnEntries(h, s);
    }
  }

  /** A run in which every subscription uses an id nobody present goes by. */
  ghost predicate DistinctIds(h: Hub, steps: seq<Step>) {
    forall i :: 0 <= i < |steps| && steps[i].Subscribe? && Exec(h, steps[..i]).Some? ==>
      !Held(Exec(h, steps[..i]).value, steps[i].sid)
  }

  lemma {:induction false} RunKeepsOwnEntries(h: Hub, steps: seq<Step>)
    requires HubInv(h) && OwnEntries(h) && Exec(h, steps).Some? && DistinctIds(h, steps)
    ensures HubInv(Exec(h, steps).value) && OwnEntries(Exec(h, steps).value)
  {
    if steps != [] {
      var init, last := steps[..|steps| - 1], steps[|steps| - 1];
      assert DistinctIds(h, init) by {
        forall i | 0 <= i < |init| && init[i].Subscribe? && Exec(h, init[..i]).Some?
          ensures !Held(Exec(h, init[..i]).value, init[i].sid)
        {
          assert init[..i] == steps[..i] && init[i] == steps[i];
        }
      }
      RunKeepsOwnEntries(h, init);
      StepKeepsHubInv(Exec(h, init).value, last);
      StepKeepsOwnEntries(Exec(h, init).value, last);
    }
  }

  /** While the ids of those present differ, no watcher ever receives from a closed channel. */
  lemma DistinctIdsNeverSeeNil(steps: seq<Step>)
    requires Exec(EMPTY, steps).Some? && DistinctIds(EMPTY, steps)
    ensures !Exec(EMPTY, steps).value.nilReceived
  {
    RunKeepsOwnEntries(EMPTY, steps);
  }

  predicate NoSubscribe(steps: seq<Step>) {
    forall i :: 0 <= i < |steps| ==> !steps[i].Subscribe?
  }

  /** One more watcher under an id somebody watches by: when that one leaves, the newcomer sees nil. */
  lemma DuplicateSeesNil(h: Hub, sid: string, w: nat)
    requires HubInv(h) && OwnEntries(h) && Free(h)
    requires w < |h.watchers| && h.watchers[w].sid == sid && h.watchers[w].phase.Watching?
    ensures var n := |h.watchers|;
      var r := Exec(Next(h, Subscribe(sid)), [CloseChannel(w), DeleteEntry(w), ReceiveNil(n)]);
      r.Some? && r.value.nilReceived
  {
    var n := |h.watchers|;
    var h1 := Next(h, Subscribe(sid));
    assert ReadLocked(h1) ==> ReadLocked(h);
    assert Enabled(h1, CloseChannel(w));
    var h2 := Next(h1, CloseChannel(w));
    assert h2.watchers[n].closed && h2.watchers[n].phase.Watching?;
    var h3 := Next(h2, DeleteEntry(w));
    assert Enabled(h3, ReceiveNil(n));
    var s1, s2, s3 := [CloseChannel(w)], [CloseChannel(w), DeleteEntry(w)], [CloseChannel(w), DeleteEntry(w), ReceiveNil(n)];
    assert s1[..0] == [] && s2[..1] == s1 && s3[..2] == s2;
    assert Exec(h1, []) == Some(h1);
    assert Exec(h1, s1) == Some(h2);
    assert Exec(h1, s2) == Some(h3);
    assert Exec(h1, s3) == Some(Next(h3, ReceiveNil(n)));
  }

  /**
   * Exactly when a subscription is safe: with no later subscription, somebody can come to receive
   * from a closed channel if and only if the id was held when Subscribe was called.
   */
  lemma SubscribeIsSafeExactly(h: Hub, sid: string)
    requires HubInv(h) && OwnEntries(h) && Free(h)
    ensures Held(h, sid) <==>
      exists steps :: NoSubscribe(steps) && Exec(Next(h, Subscribe(sid)), steps).Some?
        && Exec(Next(h, Subscribe(sid)), steps).value.nilReceived
  {
    var h1 := Next(h, Subscribe(sid));
    if Held(h, sid) {
      var w :| 0 <= w < |h.watchers| && h.watchers[w].sid == sid && !h.watchers[w].phase.Gone?;
      DuplicateSeesNil(h, sid, w);
      var steps := [CloseChannel(w), DeleteEntry(w), ReceiveNil(|h.watchers|)];
      assert NoSubscribe(steps) && Exec(h1, steps).Some? && Exec(h1, steps).value.nilReceived;
    } else {
      StepKeepsHubInv(h, Subscribe(sid));
      StepKeepsOwnEntries(h, Subscribe(sid));
      forall steps | NoSubscribe(steps) && Exec(h1, steps).Some? ensures !Exec(h1, steps).value.nilReceived {
        RunKeepsOwnEntries(h1, steps);
      }
    }
  }

  // -------------------------------------------------------------------------- non-interference

  /** What befalls one channel: an attempted send, or a receive. */
  datatype LocalOp = Offering(event: VMEvent) | Taking

  datatype Stream = Stream(queue: seq<VMEvent>, received: seq<VMEvent>, offered: seq<VMEvent>, drops: nat)

  function StreamOf(c: Watcher): Stream { Stream(c.queue, c.received, c.offered, c.drops) }

  /** A channel by itself. */
  function Replay(ops: seq<LocalOp>): Stream {
    if ops == [] then Stream([], [], [], 0)
    else
      var before := Replay(ops[..|ops| - 1]);
      match ops[|ops| - 1]
      case Offering(e) =>
        Stream(Offer(before.queue, e), before.received, before.offered + [e],
               if |before.queue| < CAPACITY then before.drops else before.drops + 1)
      case Taking =>
        if before.queue == [] then before
        else before.(queue := before.queue[1..], received := before.received + [before.queue[0]])
  }

  /** The part of a step that is about watcher `w`'s channel. */
  function LocalPart(h: Hub, s: Step, w: nat): seq<LocalOp>
    requires Enabled(h, s)
  {
    match s
    case Send(b, sid) => if h.subs[sid] == w then [Offering(h.casts[b].event)] else []
    case Receive(r) => if r == w then [Taking] else []
    case _ => []
  }

  ghost function LocalOps(steps: seq<Step>, w: nat): seq<LocalOp>
    requires Exec(EMPTY, steps).Some?
  {
    if steps == [] then []
    else
      var init := steps[..|steps| - 1];
      LocalOps(init, w) + LocalPart(Exec(EMPTY, init).value, steps[|steps| - 1], w)
  }

  lemma ReplayGrows(ops: seq<LocalOp>, op: LocalOp)
    ensures Replay(ops + [op]) == match op
      case Offering(e) =>
        var before := Replay(ops);
        Stream(Offer(before.queue, e), before.received, before.offered + [e],
               if |before.queue| < CAPACITY then before.drops else before.drops + 1)
      case Taking =>
        var before := Replay(ops);
        if before.queue == [] then before
        else before.(queue := before.queue[1..], received := before.received + [before.queue[0]])
  {
    assert (ops + [op])[..|ops|] == ops;
  }

  /** A step does to a channel what its local part says. */
  lemma StepReplays(h: Hub, s: Step, w: nat, ops: seq<LocalOp>)
    requires Enabled(h, s) && (w >= |h.watchers| ==> ops == []) && (w < |h.watchers| ==> StreamOf(h.watchers[w]) == Replay(ops))
    ensures var h' := Next(h, s);
      && (w >= |h'.watchers| ==> ops + LocalPart(h, s, w) == [])
      && (w < |h'.watchers| ==> StreamOf(h'.watchers[w]) == Replay(ops + LocalPart(h, s, w)))
  {
    var part := LocalPart(h, s, w);
    if part == [] {
      assert ops + part == ops;
    } else {
      assert part == [part[0]];
      ReplayGrows(ops, part[0]);
    }
  }

  lemma {:induction false} RunReplays(steps: seq<Step>, w: nat)
    requires Exec(EMPTY, steps).Some?
    ensures w >= |Exec(EMPTY, steps).value.watchers| ==> LocalOps(steps, w) == []
    ensures w < |Exec(EMPTY, steps).value.watchers| ==>
      StreamOf(Exec(EMPTY, steps).value.watchers[w]) == Replay(LocalOps(steps, w))
  {
    if steps != [] {
      var init, last := steps[..|steps| - 1], steps[|steps| - 1];
      RunReplays(init, w);
      hide Next, LocalPart, Replay;
      StepReplays(Exec(EMPTY, init).value, last, w, LocalOps(init, w));
    }
  }

  /**
   * Non-interference under every interleaving: what a watcher has queued, received and lost depends on
   * nothing but what was sent to its own channel and when it received, whoever else came, went or was slow.
   */
  lemma WatchersDoNotInterfere(steps: seq<Step>, w: nat, steps': seq<Step>, w': nat)
    requires Exec(EMPTY, steps).Some? && w < |Exec(EMPTY, steps).value.watchers|
    requires Exec(EMPTY, steps').Some? && w' < |Exec(EMPTY, steps').value.watchers|
    requires LocalOps(steps, w) == LocalOps(steps', w')
    ensures StreamOf(Exec(EMPTY, steps).value.watchers[w]) == StreamOf(Exec(EMPTY, steps').value.watchers[w'])
  {
    RunReplays(steps, w);
    RunReplays(steps', w');
  }
}

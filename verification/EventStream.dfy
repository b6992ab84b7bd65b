/** The event stream: bounded channels under a map, and a broadcast that never waits. */
module EventStreams {
  import opened GoStrings

  datatype EventType = EvCreated | EvStarted | EvStopped | EvDeleted | EvError

  datatype VMEvent = VMEvent(vmId: Bytes, eventType: EventType)

  const CAPACITY: nat := 100

  /** A non-blocking send: the event is queued, or dropped when the channel is full. */
  function Offer(q: seq<VMEvent>, e: VMEvent): seq<VMEvent> {
    if |q| < CAPACITY then q + [e] else q
  }

  /** A Go channel of capacity CAPACITY. Sending on, or closing, a closed channel panics. */
  class Channel {
    var buf: seq<VMEvent>
    var closed: bool

    constructor ()
      ensures buf == [] && !closed
    {
      buf, closed := [], false;
    }

    method TrySend(e: VMEvent) returns (sent: bool)
      requires !closed
      modifies this
      ensures closed == old(closed) && buf == Offer(old(buf), e)
      ensures buf == if |old(buf)| < 100 then old(buf) + [e] else old(buf)
      ensures sent <==> |old(buf)| < 100
    {
      sent := |buf| < CAPACITY;
      if sent { buf := buf + [e]; }
    }

    /** Receiving from a closed, drained channel yields the nil event. */
    method Receive() returns (e: Option<VMEvent>)
      requires buf != [] || closed
      modifies this
      ensures closed == old(closed)
      ensures if old(buf) == [] then e == None && buf == [] else e == Some(old(buf)[0]) && buf == old(buf)[1..]
    {
      if buf == [] {
        return None;
      }
      e := Some(buf[0]);
      buf := buf[1..];
    }

    method Close()
      requires !closed
      modifies this
      ensures closed && buf == old(buf)
    {
      closed := true;
    }
  }

  class EventStream {
    var subscribers: map<string, Channel>

    /** Registered channels are open, within bounds, and objects of their own. */
    ghost predicate Valid()
      reads this, subscribers.Values
    {
      && (forall id :: id in subscribers ==> !subscribers[id].closed && |subscribers[id].buf| <= CAPACITY)
      && (forall x, y :: x in subscribers && y in subscribers && x != y ==> subscribers[x] != subscribers[y])
    }

    ghost function Queues(): map<string, seq<VMEvent>>
      reads this, subscribers.Values
    {
      map id | id in subscribers :: subscribers[id].buf
    }

    constructor ()
      ensures Valid() && Queues() == map[]
    {
      subscribers := map[];
    }

    /** A second subscription under the same id takes the first one's place; its channel stays open. */
    method Subscribe(id: string) returns (ch: Channel)
      requires Valid()
      modifies this
      ensures Valid() && fresh(ch) && !ch.closed
      ensures subscribers == old(subscribers)[id := ch]
      ensures Queues() == old(Queues())[id := []]
    {
      ch := new Channel();
      subscribers := subscribers[id := ch];
    }

    method Unsubscribe(id: string)
      requires Valid()
      modifies this, set ch | ch in subscribers.Values && id in subscribers && ch == subscribers[id]
      ensures Valid() && subscribers == old(subscribers) - {id}
      ensures id in old(subscribers) ==> old(subscribers)[id].closed && old(subscribers)[id].buf == old(subscribers[id].buf)
      ensures Queues() == old(Queues()) - {id}
    {
      if id in subscribers {
        subscribers[id].Close();
        subscribers := subscribers - {id};
      }
    }

    /** Offers the event once to every channel, in whatever order the map yields them. */
    method Broadcast(e: VMEvent)
      requires Valid()
      modifies subscribers.Values
      ensures Valid() && subscribers == old(subscribers)
      ensures Queues() == map id | id in old(subscribers) :: Offer(old(Queues())[id], e)
    {
      ghost var q := Queues();
      var todo := subscribers.Keys;
      while todo != {}
        invariant todo <= subscribers.Keys && Valid()
        invariant forall id :: id in subscribers ==>
          subscribers[id].buf == if id in todo then q[id] else Offer(q[id], e)
        decreases todo
      {
        var id :| id in todo;
        OfferOne(id, e);
        todo := todo - {id};
      }
    }

    /** One turn of the broadcast loop. */
    method OfferOne(id: string, e: VMEvent)
      requires Valid() && id in subscribers
      modifies subscribers[id]
      ensures Valid() && subscribers[id].buf == Offer(old(subscribers[id].buf), e)
      ensures forall x :: x in subscribers && x != id ==> subscribers[x].buf == old(subscribers[x].buf)
    {
      var _ := subscribers[id].TrySend(e);
    }
  }

  // ------------------------------------------------------------- runs of whole calls, as values

  datatype HubOp =
    | Sub(id: string)
    | Unsub(id: string)
    | Cast(event: VMEvent)
    | Take(id: string)  // the subscriber receives, if there is anything to receive

  datatype Subscription = Subscription(queue: seq<VMEvent>, received: seq<VMEvent>)

  function Apply(hub: map<string, Subscription>, op: HubOp): map<string, Subscription> {
    match op
    case Sub(id) => hub[id := Subscription([], [])]
    case Unsub(id) => hub - {id}
    case Cast(e) => map id | id in hub :: hub[id].(queue := Offer(hub[id].queue, e))
    case Take(id) =>
      if id in hub && hub[id].queue != [] then
        hub[id := Subscription(hub[id].queue[1..], hub[id].received + [hub[id].queue[0]])]
      else hub
  }

  function ApplyAll(hub: map<string, Subscription>, ops: seq<HubOp>): map<string, Subscription> {
    if ops == [] then hub else Apply(ApplyAll(hub, ops[..|ops| - 1]), ops[|ops| - 1])
  }

  /** What concerns subscriber `id`: its own calls and every broadcast. */
  predicate Matters(op: HubOp, id: string) {
    op.Cast? || op.id == id
  }

  function Project(ops: seq<HubOp>, id: string): seq<HubOp> {
    if ops == [] then []
    else Project(ops[..|ops| - 1], id) + if Matters(ops[|ops| - 1], id) then [ops[|ops| - 1]] else []
  }

  function Lookup(hub: map<string, Subscription>, id: string): Option<Subscription> {
    if id in hub then Some(hub[id]) else None
  }

  /**
   * Non-interference: a subscriber has queued and received exactly what it would have if nobody else
   * had ever subscribed, received or left.
   */
  lemma {:induction false} SubscribersDoNotInterfere(ops: seq<HubOp>, id: string)
    ensures Lookup(ApplyAll(map[], ops), id) == Lookup(ApplyAll(map[], Project(ops, id)), id)
  {
    if ops != [] {
      var init, last := ops[..|ops| - 1], ops[|ops| - 1];
      SubscribersDoNotInterfere(init, id);
      if Matters(last, id) {
        var p := Project(init, id) + [last];
        assert p[..|p| - 1] == Project(init, id);
      } else {
        assert Project(init, id) + [] == Project(init, id);
      }
    }
  }
}

/** What happens to emitted events: each is delivered, still buffered, or lost to
    buffer overflow, and never overtaken. */
module StageOrder {
  import opened Values
  import opened StageDispatch
  import opened StageLoop
  import opened StageNetwork
  import opened StageCredit

  /** The fate of an event that left the buffer: sent to some subscriptions, or
      dropped as the oldest on overflow. */
  datatype Fate = Routed(event: Value, to: set<Tag>) | Lost(event: Value)

  function EventsOf(log: seq<Fate>): (r: seq<Value>)
  {
    seq(|log|, i requires 0 <= i < |log| => log[i].event)
  }

  /** The events of the log that went to `t`, in order. */
  function RoutedTo(log: seq<Fate>, t: Tag): seq<Value>
  {
    if log == [] then []
    else (if log[0].Routed? && t in log[0].to then [log[0].event] else []) + RoutedTo(log[1..], t)
  }

  function Tagged(events: seq<Value>, to: set<Tag>): seq<Fate>
  {
    seq(|events|, i requires 0 <= i < |events| => Routed(events[i], to))
  }

  function LostLog(events: seq<Value>): seq<Fate>
  {
    seq(|events|, i requires 0 <= i < |events| => Lost(events[i]))
  }

  function DeliveryLog(ds: seq<Delivery>): seq<Fate>
  {
    if ds == [] then [] else Tagged(ds[0].events, {ds[0].tag}) + DeliveryLog(ds[1..])
  }

  /** The log of one dispatch. */
  function RouteLog(d: Dispatcher, ds: seq<Delivery>): seq<Fate>
  {
    match d
    case DemandDispatcher => DeliveryLog(ds)
    case BroadcastDispatcher => if ds == [] then [] else Tagged(ds[0].events, set x | x in ds :: x.tag)
  }

  /** The events the overflow policy drops when `leftover` joins `buffer`. */
  function Overflow(buffer: seq<Value>, leftover: seq<Value>): seq<Value>
  {
    var b := buffer + leftover;
    if leftover != [] && |b| > MAX_EVENT_BUFFER then b[..|b| - MAX_EVENT_BUFFER] else []
  }

  function ShipLog(st: Stage, events: seq<Value>): seq<Fate>
  {
    if events == [] then [] else
      var d := Dispatch(st.dispatcher, events, st.demands);
      RouteLog(st.dispatcher, d.deliveries) + LostLog(Overflow(st.buffer, d.leftover))
  }

  function DrainLog(st: Stage): seq<Fate>
  {
    if st.buffer == [] then [] else RouteLog(st.dispatcher, Dispatch(st.dispatcher, st.buffer, st.demands).deliveries)
  }

  /** The stage as it stands when a producer is asked for more events. */
  function AfterDrain(st: Stage, tag: Tag, demand: nat): Stage
  {
    DrainBuffer(st.(demands := AddDemand(st.demands, tag, demand)), AlwaysOpen).stage
  }

  predicate AsksProducer(st: Stage, tag: Tag, demand: nat)
  {
    st.kind == Producer && Min(demand, TotalDemand(AfterDrain(st, tag, demand).demands)) > 0
  }

  /** The fresh events the stage emits while handling `cmd`. */
  function Emitted(st: Stage, cmd: Command, cb: Callback): seq<Value>
  {
    match cmd
    case AskDemand(tag, demand) =>
      if tag !in st.upstreams && AsksProducer(st, tag, demand) then cb.produced else []
    case Events(_, _) => if st.kind == ProducerConsumer then cb.emitted else []
    case Emit => if st.kind == Consumer then [] else cb.emitted
    case _ => []
  }

  /** The fates decided while handling `cmd`. */
  function Fates(st: Stage, cmd: Command, cb: Callback): seq<Fate>
  {
    match cmd
    case AskDemand(tag, demand) =>
      if tag in st.upstreams then []
      else DrainLog(st.(demands := AddDemand(st.demands, tag, demand)))
           + ShipLog(AfterDrain(st, tag, demand), Emitted(st, cmd, cb))
    case _ => ShipLog(st, Emitted(st, cmd, cb))
  }

  /** A non-empty buffer means that nothing more could be sent, so a fresh event
      cannot overtake a buffered one. */
  ghost predicate Settled(st: Stage)
  {
    st.buffer != [] ==> Saturated(st.dispatcher, st.demands)
  }

  /** The log and the buffer account for the old buffer and the fresh events, in order. */
  ghost predicate Accounted(st: Stage, st': Stage, added: seq<Value>, fates: seq<Fate>)
  {
    EventsOf(fates) + st'.buffer == st.buffer + added
  }

  lemma EventsOfAppend(a: seq<Fate>, b: seq<Fate>)
    ensures EventsOf(a + b) == EventsOf(a) + EventsOf(b)
  {
  }

  lemma {:induction false} DeliveryLogEvents(ds: seq<Delivery>)
    ensures EventsOf(DeliveryLog(ds)) == AllEvents(ds)
    decreases |ds|
  {
    if ds != [] {
      DeliveryLogEvents(ds[1..]);
      EventsOfAppend(Tagged(ds[0].events, {ds[0].tag}), DeliveryLog(ds[1..]));
      assert EventsOf(Tagged(ds[0].events, {ds[0].tag})) == ds[0].events;
    }
  }

  lemma RouteLogEvents(d: Dispatcher, events: seq<Value>, subs: seq<ConsumerDemand>)
    ensures var r := Dispatch(d, events, subs); EventsOf(RouteLog(d, r.deliveries)) + r.leftover == events
  {
    var r := Dispatch(d, events, subs);
    match d
    case DemandDispatcher =>
      DemandDispatchSplits(events, subs);
      DeliveryLogEvents(r.deliveries);
    case BroadcastDispatcher =>
      BroadcastDispatchSplits(events, subs);
      if r.deliveries != [] {
        assert EventsOf(RouteLog(d, r.deliveries)) == r.deliveries[0].events;
      }
  }

  lemma OverflowSplits(buffer: seq<Value>, leftover: seq<Value>)
    ensures EventsOf(LostLog(Overflow(buffer, leftover))) + BufferLeftover(buffer, leftover) == buffer + leftover
  {
    assert EventsOf(LostLog(Overflow(buffer, leftover))) == Overflow(buffer, leftover);
  }

  /** With open channels a dispatch is just the dispatcher and the buffer. */
  lemma ShipStage(st: Stage, events: seq<Value>)
    requires Wired(st)
    ensures events != [] ==>
              var d := Dispatch(st.dispatcher, events, st.demands);
              DispatchAndDeliver(st, events, AlwaysOpen).stage ==
              st.(demands := d.demands, buffer := BufferLeftover(st.buffer, d.leftover))
    ensures st.buffer != [] ==>
              var d := Dispatch(st.dispatcher, st.buffer, st.demands);
              DrainBuffer(st, AlwaysOpen).stage == st.(demands := d.demands, buffer := d.leftover)
  {
    hide Dispatch, Wired;
    ShipBatch(st, events, 0);
    ShipBatch(st, st.buffer, 0);
    assert forall b: seq<Value> :: BufferLeftover(b, []) == b by {
      forall b: seq<Value> ensures BufferLeftover(b, []) == b { assert b + [] == b; }
    }
  }

  lemma ShipAccounted(st: Stage, events: seq<Value>)
    requires Wired(st) && Settled(st)
    ensures var st' := DispatchAndDeliver(st, events, AlwaysOpen).stage;
            Accounted(st, st', events, ShipLog(st, events)) && Settled(st')
  {
    hide Dispatch, DispatchAndDeliver, Wired, Saturated, RouteLog, EventsOf, LostLog, Overflow, BufferLeftover;
    ShipStage(st, events);
    if events == [] {
      assert DispatchAndDeliver(st, events, AlwaysOpen).stage == st by { ShipNothing(st); }
      assert EventsOf([]) == [] by { NoEvents(); }
      assert st.buffer + [] == st.buffer;
    } else {
      var d := Dispatch(st.dispatcher, events, st.demands);
      RouteLogEvents(st.dispatcher, events, st.demands);
      OverflowSplits(st.buffer, d.leftover);
      LeftoverMeansSaturated(st.dispatcher, events, st.demands);
      var routed, lost := RouteLog(st.dispatcher, d.deliveries), LostLog(Overflow(st.buffer, d.leftover));
      EventsOfAppend(routed, lost);
      if st.buffer != [] {
        SaturatedHolds(st.dispatcher, events, st.demands);
        assert EventsOf(routed) == [] by { SaturatedLogsNothing(st.dispatcher, events, st.demands); }
      }
      calc {
        EventsOf(ShipLog(st, events)) + BufferLeftover(st.buffer, d.leftover);
        EventsOf(routed) + EventsOf(lost) + BufferLeftover(st.buffer, d.leftover);
        EventsOf(routed) + (EventsOf(lost) + BufferLeftover(st.buffer, d.leftover));
        EventsOf(routed) + (st.buffer + d.leftover);
        { if st.buffer == [] {
            assert st.buffer + d.leftover == d.leftover;
            assert st.buffer + events == events;
          } }
        st.buffer + events;
      }
      if BufferLeftover(st.buffer, d.leftover) != [] {
        NonEmptyBuffer(st.buffer, d.leftover);
      }
    }
  }

  lemma NoEvents()
    ensures EventsOf([]) == []
  {
  }

  lemma ShipNothing(st: Stage)
    ensures DispatchAndDeliver(st, [], AlwaysOpen) == Step(st, [])
  {
  }

  lemma NonEmptyBuffer(buffer: seq<Value>, leftover: seq<Value>)
    requires BufferLeftover(buffer, leftover) != []
    ensures buffer != [] || leftover != []
  {
  }

  lemma SaturatedLogsNothing(d: Dispatcher, events: seq<Value>, subs: seq<ConsumerDemand>)
    requires Saturated(d, subs)
    ensures EventsOf(RouteLog(d, Dispatch(d, events, subs).deliveries)) == []
  {
    SaturatedHolds(d, events, subs);
  }

  lemma DrainAccounted(st: Stage)
    requires Wired(st)
    ensures var st' := DrainBuffer(st, AlwaysOpen).stage;
            Accounted(st, st', [], DrainLog(st)) && Settled(st')
  {
    hide Dispatch, Wired, Saturated, RouteLog, EventsOf;
    ShipStage(st, []);
    NoEvents();
    if st.buffer != [] {
      RouteLogEvents(st.dispatcher, st.buffer, st.demands);
      LeftoverMeansSaturated(st.dispatcher, st.buffer, st.demands);
    }
    assert st.buffer + [] == st.buffer;
  }

  lemma AskAccounted(st: Stage, tag: Tag, demand: nat, cb: Callback)
    requires Wired(st) && Settled(st)
    ensures var cmd := AskDemand(tag, demand);
            var st' := HandleAsk(st, tag, demand, cb.produced, AlwaysOpen).stage;
            Accounted(st, st', Emitted(st, cmd, cb), Fates(st, cmd, cb)) && Settled(st')
  {
    hide DrainBuffer, DispatchAndDeliver, Wired, Saturated, EventsOf, ShipLog, DrainLog, TotalDemand, TagsOf;
    var cmd := AskDemand(tag, demand);
    if tag in st.upstreams {
      NoEvents();
      assert st.buffer + [] == st.buffer;
    } else {
      var st1 := st.(demands := AddDemand(st.demands, tag, demand));
      AddDemandPending(st.demands, tag, demand, tag);
      SameTagsWired(st, st1);
      DrainAccounted(st1);
      var mid := DrainBuffer(st1, AlwaysOpen).stage;
      DispatchShips(st1, [], tag);
      SameTagsWired(st1, mid);
      var added := Emitted(st, cmd, cb);
      ShipAccounted(mid, added);
      ShipNothing(mid);
      var st' := HandleAsk(st, tag, demand, cb.produced, AlwaysOpen).stage;
      assert st' == DispatchAndDeliver(mid, added, AlwaysOpen).stage;
      EventsOfAppend(DrainLog(st1), ShipLog(mid, added));
      calc {
        EventsOf(Fates(st, cmd, cb)) + st'.buffer;
        EventsOf(DrainLog(st1)) + EventsOf(ShipLog(mid, added)) + st'.buffer;
        EventsOf(DrainLog(st1)) + (EventsOf(ShipLog(mid, added)) + st'.buffer);
        EventsOf(DrainLog(st1)) + (mid.buffer + added);
        EventsOf(DrainLog(st1)) + mid.buffer + added;
        st1.buffer + [] + added;
        { assert st1.buffer + [] == st1.buffer; }
        st.buffer + added;
      }
    }
  }

  /** Removing one subscription keeps the stage settled, except a broadcast stage
      whose remaining subscribers all have demand while events wait for the
      removed one. */
  ghost predicate CancelSafe(st: Stage, tag: Tag)
  {
    st.dispatcher == BroadcastDispatcher && tag in st.downstreams && st.buffer != [] ==>
      Saturated(BroadcastDispatcher, Without(st.demands, tag))
  }

  lemma {:induction false} WithoutMember(subs: seq<ConsumerDemand>, tag: Tag, x: ConsumerDemand)
    ensures x in Without(subs, tag) <==> x in subs && x.tag != tag
    decreases |subs|
  {
    if subs != [] { WithoutMember(subs[1..], tag, x); }
  }

  lemma CancelSettled(st: Stage, tag: Tag)
    requires Settled(st)
    ensures Settled(HandleCancel(st, tag, AlwaysOpen).stage) <==> CancelSafe(st, tag)
  {
    if st.dispatcher == DemandDispatcher && st.buffer != [] {
      var rest := Without(st.demands, tag);
      forall i | 0 <= i < |rest| ensures rest[i].pending == 0 {
        WithoutMember(st.demands, tag, rest[i]);
        var k :| 0 <= k < |st.demands| && st.demands[k] == rest[i];
      }
    }
  }

  lemma SubscribeSettled(st: Stage, tag: Tag)
    requires Settled(st)
    ensures Settled(st.(demands := st.demands + [ConsumerDemand(tag, 0)]))
  {
    var demands := st.demands + [ConsumerDemand(tag, 0)];
    assert demands[|st.demands|].pending == 0;
  }

  /** Every handler accounts for its events in emission order, for both
      dispatchers, overflow included; only an unsafe cancel loses the settled state. */
  lemma HandleAccounted(st: Stage, cmd: Command, cb: Callback)
    requires Wired(st) && Settled(st)
    ensures var st' := Handle(st, cmd, cb, AlwaysOpen).stage;
            && Accounted(st, st', Emitted(st, cmd, cb), Fates(st, cmd, cb))
            && (Settled(st') <==> (cmd.Cancel? ==> CancelSafe(st, cmd.tag)))
  {
    hide DispatchAndDeliver, DrainBuffer, Wired, Saturated, EventsOf, AfterDrain, AsksProducer, CancelSafe, Without;
    assert st.buffer + [] == st.buffer;
    NoEvents();
    match cmd
    case Subscribe(tag, consumer, opts) => SubscribeSettled(st, tag);
    case Confirmed(tag, producer, opts) =>
    case Cancel(tag) => CancelSettled(st, tag);
    case AskDemand(tag, demand) => AskAccounted(st, tag, demand, cb);
    case Events(tag, events) => ShipAccounted(st, cb.emitted);
    case Emit => ShipAccounted(st, cb.emitted);
  }
}

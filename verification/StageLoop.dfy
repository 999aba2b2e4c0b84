/** The event loop of one stage: its state, its command handlers on values, and
    the mutable `LoopState` whose methods compute those handlers in place.

    User callbacks are arbitrary, so what they return is a parameter. The state
    of the peer's channel is a parameter too: a delivery finds it open, full, or
    closed; an awaiting send fails only when it is closed. */
module StageLoop {
  import opened Values
  import opened StageDispatch

  type StageId = nat
  type Usize = n: nat | n <= U64_MAX witness 0

  const MAX_EVENT_BUFFER: nat := 100_000

  datatype StageType = Producer | ProducerConsumer | Consumer
  datatype DemandMode = Automatic | Manual
  datatype SubscribeOpts = SubscribeOpts(maxDemand: Usize, minDemand: Usize)
  datatype Channel = Open | Full | Closed

  datatype Upstream = Upstream(
    producer: StageId,
    mode: DemandMode,
    minDemand: nat,
    maxDemand: Usize,
    pendingEvents: nat,
    outstanding: nat)

  datatype Command =
    | Subscribe(tag: Tag, consumer: StageId, opts: SubscribeOpts)
    | Confirmed(tag: Tag, producer: StageId, opts: SubscribeOpts)
    | Cancel(tag: Tag)
    | AskDemand(tag: Tag, demand: nat)
    | Events(tag: Tag, events: seq<Value>)
    | Emit

  datatype Out = Out(to: StageId, cmd: Command)

  datatype Stage = Stage(
    id: StageId,
    kind: StageType,
    dispatcher: Dispatcher,
    upstreams: map<Tag, Upstream>,
    downstreams: map<Tag, StageId>,
    demands: seq<ConsumerDemand>,
    buffer: seq<Value>)

  /** A handler's outcome: the new stage and the commands it sends, in order. */
  datatype Step = Step(stage: Stage, out: seq<Out>)

  /** What the user's callbacks return while one command is handled. */
  datatype Callback = Callback(mode: DemandMode, produced: seq<Value>, emitted: seq<Value>)

  // ---------------------------------------------------------------------------
  // Delivery
  // ---------------------------------------------------------------------------

  function BufferLeftover(buffer: seq<Value>, leftover: seq<Value>): (r: seq<Value>)
  {
    var b := buffer + leftover;
    if leftover != [] && |b| > MAX_EVENT_BUFFER then b[|b| - MAX_EVENT_BUFFER..] else b
  }

  datatype Delivered = Delivered(out: seq<Out>, undelivered: seq<Value>, dead: seq<Tag>)

  function Deliver(downstreams: map<Tag, StageId>, ds: seq<Delivery>, peer: Tag -> Channel): (r: Delivered)
  {
    if ds == [] then
      Delivered([], [], [])
    else
      var init := Deliver(downstreams, ds[..|ds| - 1], peer);
      var d := ds[|ds| - 1];
      if d.tag !in downstreams then init
      else match peer(d.tag)
        case Open => init.(out := init.out + [Out(downstreams[d.tag], Events(d.tag, d.events))])
        case Full => init.(undelivered := init.undelivered + d.events)
        case Closed => init.(undelivered := init.undelivered + d.events, dead := init.dead + [d.tag])
  }

  function Without(subs: seq<ConsumerDemand>, t: Tag): (r: seq<ConsumerDemand>)
  {
    if subs == [] then []
    else (if subs[0].tag == t then [] else [subs[0]]) + Without(subs[1..], t)
  }

  function DropDownstream(st: Stage, t: Tag): Stage
  {
    if t in st.downstreams then
      st.(downstreams := st.downstreams - {t}, demands := Without(st.demands, t))
    else st
  }

  function CleanupDead(st: Stage, dead: seq<Tag>): Stage
    decreases |dead|
  {
    if dead == [] then st else DropDownstream(CleanupDead(st, dead[..|dead| - 1]), dead[|dead| - 1])
  }

  /** Dispatch `events` with `base` as the buffer that takes what is left over. */
  function SendBatch(st: Stage, base: seq<Value>, events: seq<Value>, peer: Tag -> Channel): (r: Step)
  {
    var d := Dispatch(st.dispatcher, events, st.demands);
    var sent := Deliver(st.downstreams, d.deliveries, peer);
    var buffer := BufferLeftover(BufferLeftover(base, d.leftover), sent.undelivered);
    Step(CleanupDead(st.(demands := d.demands, buffer := buffer), sent.dead), sent.out)
  }

  function DispatchAndDeliver(st: Stage, events: seq<Value>, peer: Tag -> Channel): (r: Step)
  {
    if events == [] then Step(st, []) else SendBatch(st, st.buffer, events, peer)
  }

  /** Offer the whole buffer again; the leftover replaces it without the overflow
      policy, exactly as long as the buffer never exceeds its bound. */
  function DrainBuffer(st: Stage, peer: Tag -> Channel): (r: Step)
  {
    if st.buffer == [] then Step(st, []) else
      var d := Dispatch(st.dispatcher, st.buffer, st.demands);
      var sent := Deliver(st.downstreams, d.deliveries, peer);
      var buffer := BufferLeftover(d.leftover, sent.undelivered);
      Step(CleanupDead(st.(demands := d.demands, buffer := buffer), sent.dead), sent.out)
  }

  // ---------------------------------------------------------------------------
  // Handlers
  // ---------------------------------------------------------------------------

  function HandleSubscribe(st: Stage, tag: Tag, consumer: StageId, opts: SubscribeOpts, peer: Tag -> Channel): (r: Step)
  {
    Step(
      st.(demands := st.demands + [ConsumerDemand(tag, 0)], downstreams := st.downstreams[tag := consumer]),
      if peer(tag) == Closed then [] else [Out(consumer, Confirmed(tag, st.id, opts))])
  }

  /** The negotiated window: at least one event, and a re-ask threshold inside it. */
  function Negotiate(producer: StageId, mode: DemandMode, opts: SubscribeOpts): Upstream
  {
    var maxDemand := if opts.maxDemand >= 1 then opts.maxDemand else 1;
    Upstream(producer, mode, Min(opts.minDemand, maxDemand), maxDemand, 0,
             if mode == Automatic then maxDemand else 0)
  }

  function HandleConfirmed(
    st: Stage, tag: Tag, producer: StageId, opts: SubscribeOpts, mode: DemandMode, peer: Tag -> Channel): (r: Step)
  {
    var up := Negotiate(producer, mode, opts);
    Step(
      st.(upstreams := st.upstreams[tag := up]),
      if mode == Automatic && peer(tag) != Closed then [Out(producer, AskDemand(tag, up.maxDemand))] else [])
  }

  function HandleCancel(st: Stage, tag: Tag, peer: Tag -> Channel): (r: Step)
  {
    if tag in st.downstreams then
      Step(DropDownstream(st, tag),
           if peer(tag) == Closed then [] else [Out(st.downstreams[tag], Cancel(tag))])
    else if tag in st.upstreams then
      Step(st.(upstreams := st.upstreams - {tag}),
           if peer(tag) == Closed then [] else [Out(st.upstreams[tag].producer, Cancel(tag))])
    else Step(st, [])
  }

  /** The first record for `tag` gains `demand`; nothing changes when there is none. */
  function AddDemand(subs: seq<ConsumerDemand>, tag: Tag, demand: nat): (r: seq<ConsumerDemand>)
  {
    if subs == [] then []
    else if subs[0].tag == tag then [subs[0].(pending := subs[0].pending + demand)] + subs[1..]
    else [subs[0]] + AddDemand(subs[1..], tag, demand)
  }

  function HandleAsk(st: Stage, tag: Tag, demand: nat, produced: seq<Value>, peer: Tag -> Channel): (r: Step)
  {
    if tag in st.upstreams then
      if peer(tag) == Closed then Step(st.(upstreams := st.upstreams - {tag}), [])
      else Step(st, [Out(st.upstreams[tag].producer, AskDemand(tag, demand))])
    else
      var drained := DrainBuffer(st.(demands := AddDemand(st.demands, tag, demand)), peer);
      if st.kind == Producer && Min(demand, TotalDemand(drained.stage.demands)) > 0 then
        var more := DispatchAndDeliver(drained.stage, produced, peer);
        Step(more.stage, drained.out + more.out)
      else drained
  }

  /** Room for re-asking upstream: a producer-consumer asks for no more than its
      own consumers still want. */
  function Room(st: Stage): nat {
    if st.kind == ProducerConsumer then TotalDemand(st.demands) else U64_MAX
  }

  /** The window after `n` events arrived, and the demand to ask for again. */
  function Reask(up: Upstream, n: nat, room: nat): (r: (Upstream, nat))
  {
    var counted := up.(pendingEvents := up.pendingEvents + n, outstanding := SaturatingSub(up.outstanding, n));
    if counted.pendingEvents >= counted.minDemand then
      var ask := Min(SaturatingSub(counted.maxDemand, counted.outstanding), room);
      (counted.(pendingEvents := 0, outstanding := counted.outstanding + ask), ask)
    else (counted, 0)
  }

  /** Count `n` events against the subscription's window and ask for more once
      the threshold is reached. */
  function Replenish(st: Stage, tag: Tag, n: nat, peer: Tag -> Channel): (r: Step)
  {
    if tag in st.upstreams && st.upstreams[tag].mode == Automatic then
      var (up, ask) := Reask(st.upstreams[tag], n, Room(st));
      if ask > 0 && peer(tag) == Closed then
        Step(st.(upstreams := st.upstreams - {tag}), [])
      else
        Step(st.(upstreams := st.upstreams[tag := up]),
             if ask > 0 then [Out(up.producer, AskDemand(tag, ask))] else [])
    else Step(st, [])
  }

  function HandleEvents(st: Stage, tag: Tag, events: seq<Value>, emitted: seq<Value>, peer: Tag -> Channel): (r: Step)
  {
    var fwd := if st.kind == ProducerConsumer then DispatchAndDeliver(st, emitted, peer) else Step(st, []);
    var asked := Replenish(fwd.stage, tag, |events|, peer);
    Step(asked.stage, fwd.out + asked.out)
  }

  function HandleEmit(st: Stage, emitted: seq<Value>, peer: Tag -> Channel): (r: Step)
  {
    if st.kind == Consumer then Step(st, []) else DispatchAndDeliver(st, emitted, peer)
  }

  /** One iteration of the loop. */
  function Handle(st: Stage, cmd: Command, cb: Callback, peer: Tag -> Channel): (r: Step)
  {
    match cmd
    case Subscribe(tag, consumer, opts) => HandleSubscribe(st, tag, consumer, opts, peer)
    case Confirmed(tag, producer, opts) => HandleConfirmed(st, tag, producer, opts, cb.mode, peer)
    case Cancel(tag) => HandleCancel(st, tag, peer)
    case AskDemand(tag, demand) => HandleAsk(st, tag, demand, cb.produced, peer)
    case Events(tag, events) => HandleEvents(st, tag, events, cb.emitted, peer)
    case Emit => HandleEmit(st, cb.emitted, peer)
  }

  // ---------------------------------------------------------------------------
  // The loop state
  // ---------------------------------------------------------------------------

  lemma {:induction false} NothingToDispatch(subs: seq<ConsumerDemand>)
    ensures DemandDispatch([], subs) == DispatchResult([], [], subs)
    decreases |subs|
  {
    if subs != [] {
      NothingToDispatch(subs[1..]);
      var none: seq<Value> := [];
      assert none[0..] == none;
      assert subs == [subs[0]] + subs[1..];
    }
  }

  /** One loop iteration of the sequential dispatcher peels off the head record. */
  lemma DemandDispatchStep(events: seq<Value>, subs: seq<ConsumerDemand>, i: nat)
    requires i < |subs|
    ensures var take := Min(|events|, subs[i].pending);
            var rest := DemandDispatch(events[take..], subs[i + 1..]);
            DemandDispatch(events, subs[i..]) == DispatchResult(
              (if take == 0 then [] else [Delivery(subs[i].tag, events[..take])]) + rest.deliveries,
              rest.leftover,
              [subs[i].(pending := subs[i].pending - take)] + rest.demands)
  {
    assert subs[i..][1..] == subs[i + 1..];
  }

  /** The sequential dispatch has served the first `i` consumers. */
  ghost predicate DemandSoFar(events: seq<Value>, before: seq<ConsumerDemand>, i: nat, deliveries: seq<Delivery>,
                              remaining: seq<Value>, demands: seq<ConsumerDemand>)
  {
    && i <= |before| == |demands| && demands[i..] == before[i..]
    && var rest := DemandDispatch(remaining, before[i..]);
       DemandDispatch(events, before) ==
       DispatchResult(deliveries + rest.deliveries, rest.leftover, demands[..i] + rest.demands)
  }

  lemma DemandStarts(events: seq<Value>, before: seq<ConsumerDemand>)
    ensures DemandSoFar(events, before, 0, [], events, before)
  {
    assert before[0..] == before;
  }

  lemma DemandServesOne(events: seq<Value>, before: seq<ConsumerDemand>, i: nat, deliveries: seq<Delivery>,
                        remaining: seq<Value>, demands: seq<ConsumerDemand>)
    requires DemandSoFar(events, before, i, deliveries, remaining, demands) && i < |demands|
    ensures var take := Min(|remaining|, demands[i].pending);
            DemandSoFar(events, before, i + 1,
                        deliveries + (if take == 0 then [] else [Delivery(demands[i].tag, remaining[..take])]),
                        remaining[take..], demands[i := demands[i].(pending := demands[i].pending - take)])
  {
    hide DemandDispatch;
    assert demands[i] == demands[i..][0] == before[i..][0];
    var take := Min(|remaining|, demands[i].pending);
    var served := demands[i := demands[i].(pending := demands[i].pending - take)];
    DemandDispatchStep(remaining, before, i);
    assert served[i + 1..] == demands[i..][1..] && before[i + 1..] == before[i..][1..];
    assert served[..i + 1] == demands[..i] + [served[i]];
    var rest := DemandDispatch(remaining[take..], before[i + 1..]);
    assert demands[..i] + ([served[i]] + rest.demands) == served[..i + 1] + rest.demands;
    var one := if take == 0 then [] else [Delivery(demands[i].tag, remaining[..take])];
    assert deliveries + (one + rest.deliveries) == deliveries + one + rest.deliveries;
  }

  lemma DemandEnds(events: seq<Value>, before: seq<ConsumerDemand>, i: nat, deliveries: seq<Delivery>,
                   remaining: seq<Value>, demands: seq<ConsumerDemand>)
    requires DemandSoFar(events, before, i, deliveries, remaining, demands) && (remaining == [] || i == |demands|)
    ensures DemandDispatch(events, before) == DispatchResult(deliveries, remaining, demands)
  {
    if remaining == [] { NothingToDispatch(before[i..]); }
    assert demands[..i] + demands[i..] == demands;
  }

  /** The broadcast has served the first `i` consumers. */
  ghost predicate BroadcastSoFar(batch: seq<Value>, before: seq<ConsumerDemand>, i: nat, deliveries: seq<Delivery>,
                                 demands: seq<ConsumerDemand>)
  {
    && i <= |before| == |demands|
    && demands == Charged(|batch|, before)[..i] + before[i..]
    && deliveries == Copies(batch, before)[..i]
  }

  lemma BroadcastStarts(batch: seq<Value>, before: seq<ConsumerDemand>)
    ensures BroadcastSoFar(batch, before, 0, [], before)
  {
    assert Charged(|batch|, before)[..0] + before[0..] == before;
  }

  lemma BroadcastServesOne(batch: seq<Value>, before: seq<ConsumerDemand>, i: nat, deliveries: seq<Delivery>,
                           demands: seq<ConsumerDemand>)
    requires BroadcastSoFar(batch, before, i, deliveries, demands) && i < |demands|
    ensures BroadcastSoFar(batch, before, i + 1, deliveries + [Delivery(demands[i].tag, batch)],
                           demands[i := demands[i].(pending := SaturatingSub(demands[i].pending, |batch|))])
  {
    var charged, copies := Charged(|batch|, before), Copies(batch, before);
    assert demands[i] == before[i..][0] == before[i];
    assert charged[..i + 1] == charged[..i] + [charged[i]];
    assert copies[..i + 1] == copies[..i] + [copies[i]];
  }

  lemma BroadcastEnds(batch: seq<Value>, before: seq<ConsumerDemand>, deliveries: seq<Delivery>,
                      demands: seq<ConsumerDemand>)
    requires BroadcastSoFar(batch, before, |demands|, deliveries, demands)
    ensures demands == Charged(|batch|, before) && deliveries == Copies(batch, before)
  {
  }

  class LoopState {
    const id: StageId
    const kind: StageType
    const dispatcher: Dispatcher
    var upstreams: map<Tag, Upstream>
    var downstreams: map<Tag, StageId>
    var demands: seq<ConsumerDemand>
    var buffer: seq<Value>

    constructor (id: StageId, kind: StageType, dispatcher: Dispatcher)
      ensures View() == Stage(id, kind, dispatcher, map[], map[], [], [])
    {
      this.id, this.kind, this.dispatcher := id, kind, dispatcher;
      upstreams, downstreams, demands, buffer := map[], map[], [], [];
    }

    ghost function View(): Stage
      reads this
    {
      Stage(id, kind, dispatcher, upstreams, downstreams, demands, buffer)
    }

    method DispatchByDemand(events: seq<Value>) returns (deliveries: seq<Delivery>, leftover: seq<Value>)
      modifies this`demands
      ensures DispatchResult(deliveries, leftover, demands) == DemandDispatch(events, old(demands))
    {
      hide DemandSoFar, DemandDispatch;
      ghost var before := demands;
      var remaining := events;
      deliveries := [];
      var i := 0;
      DemandStarts(events, before);
      while i < |demands|
        invariant i <= |demands| == |before|
        invariant DemandSoFar(events, before, i, deliveries, remaining, demands)
      {
        if remaining == [] {
          break;
        }
        DemandServesOne(events, before, i, deliveries, remaining, demands);
        if demands[i].pending == 0 {
          assert remaining[0..] == remaining && demands[i := demands[i].(pending := 0)] == demands;
          assert deliveries + [] == deliveries;
        } else {
          var take := Min(|remaining|, demands[i].pending);
          deliveries := deliveries + [Delivery(demands[i].tag, remaining[..take])];
          demands := demands[i := demands[i].(pending := demands[i].pending - take)];
          remaining := remaining[take..];
        }
        i := i + 1;
      }
      DemandEnds(events, before, i, deliveries, remaining, demands);
      leftover := remaining;
    }

    method DispatchToAll(events: seq<Value>) returns (deliveries: seq<Delivery>, leftover: seq<Value>)
      modifies this`demands
      ensures DispatchResult(deliveries, leftover, demands) == BroadcastDispatch(events, old(demands))
    {
      hide LeastDemand, Charged, Copies, BroadcastSoFar;
      var least := LeastDemand(demands);
      if events == [] || least == 0 {
        return [], events;
      }
      ghost var before := demands;
      var take := Min(|events|, least);
      var batch := events[..take];
      deliveries, leftover := [], events[take..];
      var i := 0;
      BroadcastStarts(batch, before);
      while i < |demands|
        invariant i <= |demands|
        invariant BroadcastSoFar(batch, before, i, deliveries, demands)
      {
        BroadcastServesOne(batch, before, i, deliveries, demands);
        deliveries := deliveries + [Delivery(demands[i].tag, batch)];
        demands := demands[i := demands[i].(pending := SaturatingSub(demands[i].pending, |batch|))];
        i := i + 1;
      }
      BroadcastEnds(batch, before, deliveries, demands);
    }

    method RunDispatcher(events: seq<Value>) returns (deliveries: seq<Delivery>, leftover: seq<Value>)
      modifies this`demands
      ensures DispatchResult(deliveries, leftover, demands) == Dispatch(dispatcher, events, old(demands))
    {
      match dispatcher
      case DemandDispatcher => deliveries, leftover := DispatchByDemand(events);
      case BroadcastDispatcher => deliveries, leftover := DispatchToAll(events);
    }

    method PushLeftover(leftover: seq<Value>)
      modifies this`buffer
      ensures buffer == BufferLeftover(old(buffer), leftover)
    {
      if leftover == [] { return; }
      buffer := buffer + leftover;
      if |buffer| > MAX_EVENT_BUFFER {
        var overflow := |buffer| - MAX_EVENT_BUFFER;
        buffer := buffer[overflow..];
      }
    }

    method DeliverEvents(ds: seq<Delivery>, peer: Tag -> Channel)
      returns (out: seq<Out>, undelivered: seq<Value>, dead: seq<Tag>)
      ensures Delivered(out, undelivered, dead) == Deliver(downstreams, ds, peer)
    {
      out, undelivered, dead := [], [], [];
      for i := 0 to |ds|
        invariant Delivered(out, undelivered, dead) == Deliver(downstreams, ds[..i], peer)
      {
        assert ds[..i + 1][..i] == ds[..i];
        if ds[i].tag in downstreams {
          match peer(ds[i].tag)
          case Open =>
            out := out + [Out(downstreams[ds[i].tag], Events(ds[i].tag, ds[i].events))];
          case Full =>
            undelivered := undelivered + ds[i].events;
          case Closed =>
            undelivered := undelivered + ds[i].events;
            dead := dead + [ds[i].tag];
        }
      }
      assert ds[..|ds|] == ds;
    }

    method CleanupDeadDownstreams(dead: seq<Tag>)
      modifies this`downstreams, this`demands
      ensures View() == CleanupDead(old(View()), dead)
    {
      ghost var before := View();
      for i := 0 to |dead|
        invariant View() == CleanupDead(before, dead[..i])
      {
        assert dead[..i + 1][..i] == dead[..i];
        if dead[i] in downstreams {
          downstreams := downstreams - {dead[i]};
          demands := Without(demands, dead[i]);
        }
      }
      assert dead[..|dead|] == dead;
    }

    method DispatchAndDeliverEvents(events: seq<Value>, peer: Tag -> Channel) returns (out: seq<Out>)
      modifies this`downstreams, this`demands, this`buffer
      ensures Step(View(), out) == DispatchAndDeliver(old(View()), events, peer)
    {
      if events == [] { return []; }
      var deliveries, leftover := RunDispatcher(events);
      PushLeftover(leftover);
      var undelivered, dead;
      out, undelivered, dead := DeliverEvents(deliveries, peer);
      PushLeftover(undelivered);
      CleanupDeadDownstreams(dead);
    }

    method OnSubscribe(tag: Tag, consumer: StageId, opts: SubscribeOpts, peer: Tag -> Channel) returns (out: seq<Out>)
      modifies this`downstreams, this`demands
      ensures Step(View(), out) == HandleSubscribe(old(View()), tag, consumer, opts, peer)
    {
      demands := demands + [ConsumerDemand(tag, 0)];
      downstreams := downstreams[tag := consumer];
      out := if peer(tag) == Closed then [] else [Out(consumer, Confirmed(tag, id, opts))];
    }

    method OnConfirmed(tag: Tag, producer: StageId, opts: SubscribeOpts, mode: DemandMode, peer: Tag -> Channel)
      returns (out: seq<Out>)
      modifies this`upstreams
      ensures Step(View(), out) == HandleConfirmed(old(View()), tag, producer, opts, mode, peer)
    {
      var maxDemand: Usize := if opts.maxDemand >= 1 then opts.maxDemand else 1;
      var minDemand := Min(opts.minDemand, maxDemand);
      upstreams := upstreams[tag := Upstream(producer, mode, minDemand, maxDemand, 0, 0)];
      out := [];
      if mode == Automatic {
        upstreams := upstreams[tag := upstreams[tag].(outstanding := maxDemand)];
        if peer(tag) != Closed {
          out := [Out(producer, AskDemand(tag, maxDemand))];
        }
      }
    }

    method OnCancel(tag: Tag, peer: Tag -> Channel) returns (out: seq<Out>)
      modifies this`upstreams, this`downstreams, this`demands
      ensures Step(View(), out) == HandleCancel(old(View()), tag, peer)
    {
      out := [];
      if tag in downstreams {
        if peer(tag) != Closed { out := [Out(downstreams[tag], Cancel(tag))]; }
        downstreams := downstreams - {tag};
        demands := Without(demands, tag);
      } else if tag in upstreams {
        if peer(tag) != Closed { out := [Out(upstreams[tag].producer, Cancel(tag))]; }
        upstreams := upstreams - {tag};
      }
    }

    method OnAsk(tag: Tag, demand: nat, produced: seq<Value>, peer: Tag -> Channel) returns (out: seq<Out>)
      modifies this
      ensures Step(View(), out) == HandleAsk(old(View()), tag, demand, produced, peer)
    {
      out := [];
      if tag in upstreams {
        if peer(tag) == Closed {
          upstreams := upstreams - {tag};
        } else {
          out := [Out(upstreams[tag].producer, AskDemand(tag, demand))];
        }
        return;
      }
      demands := AddDemand(demands, tag, demand);
      if buffer != [] {
        var buffered := buffer;
        buffer := [];
        var deliveries, leftover := RunDispatcher(buffered);
        buffer := leftover;
        var undelivered, dead;
        out, undelivered, dead := DeliverEvents(deliveries, peer);
        PushLeftover(undelivered);
        CleanupDeadDownstreams(dead);
      }
      assert Step(View(), out) ==
             DrainBuffer(old(View()).(demands := AddDemand(old(demands), tag, demand)), peer);
      if kind == Producer {
        var want := Min(demand, TotalDemand(demands));
        if want > 0 {
          var more := DispatchAndDeliverEvents(produced, peer);
          out := out + more;
        }
      }
    }

    method ReplenishUpstream(tag: Tag, count: nat, peer: Tag -> Channel) returns (out: seq<Out>)
      modifies this`upstreams
      ensures Step(View(), out) == Replenish(old(View()), tag, count, peer)
    {
      out := [];
      var room := if kind == ProducerConsumer then TotalDemand(demands) else U64_MAX;
      if tag in upstreams && upstreams[tag].mode == Automatic {
        var up, reask := upstreams[tag], 0;
        up := up.(pendingEvents := up.pendingEvents + count,
                  outstanding := SaturatingSub(up.outstanding, count));
        if up.pendingEvents >= up.minDemand {
          up := up.(pendingEvents := 0);
          reask := Min(SaturatingSub(up.maxDemand, up.outstanding), room);
          up := up.(outstanding := up.outstanding + reask);
        }
        upstreams := upstreams[tag := up];
        if reask > 0 {
          if peer(tag) == Closed {
            upstreams := upstreams - {tag};
            assert upstreams == old(upstreams) - {tag};
          } else {
            out := [Out(up.producer, AskDemand(tag, reask))];
          }
        }
      }
    }

    method OnEvents(tag: Tag, events: seq<Value>, emitted: seq<Value>, peer: Tag -> Channel) returns (out: seq<Out>)
      modifies this
      ensures Step(View(), out) == HandleEvents(old(View()), tag, events, emitted, peer)
    {
      out := [];
      if kind == ProducerConsumer && emitted != [] {
        out := DispatchAndDeliverEvents(emitted, peer);
      }
      var asked := ReplenishUpstream(tag, |events|, peer);
      out := out + asked;
    }

    /** One iteration of the stage's loop. */
    method HandleCommand(cmd: Command, cb: Callback, peer: Tag -> Channel) returns (out: seq<Out>)
      modifies this
      ensures Step(View(), out) == Handle(old(View()), cmd, cb, peer)
    {
      match cmd
      case Subscribe(tag, consumer, opts) => out := OnSubscribe(tag, consumer, opts, peer);
      case Confirmed(tag, producer, opts) => out := OnConfirmed(tag, producer, opts, cb.mode, peer);
      case Cancel(tag) => out := OnCancel(tag, peer);
      case AskDemand(tag, demand) => out := OnAsk(tag, demand, cb.produced, peer);
      case Events(tag, events) => out := OnEvents(tag, events, cb.emitted, peer);
      case Emit =>
        out := [];
        if kind != Consumer { out := DispatchAndDeliverEvents(cb.emitted, peer); }
    }
  }
}

/** Event flow over whole runs of a stage network: emission order end to end,
    nothing duplicated, and agreement of broadcast subscribers. */
module StageFlow {
  import opened Values
  import opened StageDispatch
  import opened StageLoop
  import opened StageNetwork
  import opened StageCredit
  import opened StageRuns
  import opened StageOrder

  // ---------------------------------------------------------------------------
  // One stage: the log says what was sent
  // ---------------------------------------------------------------------------

  /** Events sent to `t`, in order. */
  function OutEvents(out: seq<Out>, t: Tag): seq<Value>
  {
    if out == [] then []
    else (if out[0].cmd.Events? && out[0].cmd.tag == t then out[0].cmd.events else []) + OutEvents(out[1..], t)
  }

  /** Events for `t` waiting in a channel, in order. */
  function InTransit(cmds: seq<Command>, t: Tag): seq<Value>
  {
    if cmds == [] then []
    else (if cmds[0].Events? && cmds[0].tag == t then cmds[0].events else []) + InTransit(cmds[1..], t)
  }

  lemma {:induction false} OutAppend(a: seq<Out>, b: seq<Out>, t: Tag)
    ensures OutEvents(a + b, t) == OutEvents(a, t) + OutEvents(b, t)
    decreases |a|
  {
    if a == [] {
      assert a + b == b;
    } else {
      assert (a + b)[1..] == a[1..] + b;
      OutAppend(a[1..], b, t);
    }
  }

  lemma {:induction false} TransitAppend(a: seq<Command>, b: seq<Command>, t: Tag)
    ensures InTransit(a + b, t) == InTransit(a, t) + InTransit(b, t)
    decreases |a|
  {
    if a == [] {
      assert a + b == b;
    } else {
      assert (a + b)[1..] == a[1..] + b;
      TransitAppend(a[1..], b, t);
    }
  }

  lemma {:induction false} RoutedAppend(a: seq<Fate>, b: seq<Fate>, t: Tag)
    ensures RoutedTo(a + b, t) == RoutedTo(a, t) + RoutedTo(b, t)
    decreases |a|
  {
    if a == [] {
      assert a + b == b;
    } else {
      assert (a + b)[1..] == a[1..] + b;
      RoutedAppend(a[1..], b, t);
    }
  }

  lemma {:induction false} MailTransit(out: seq<Out>, to: StageId, s: StageId, t: Tag)
    requires forall o :: o in out && o.cmd.Events? && o.cmd.tag == t ==> o.to == to
    ensures InTransit(Mail(out, s), t) == if s == to then OutEvents(out, t) else []
    decreases |out|
  {
    if out != [] {
      assert out[0] in out;
      MailTransit(out[1..], to, s, t);
      var rest := Mail(out[1..], s);
      if out[0].to == s {
        assert ([out[0].cmd] + rest)[1..] == rest;
      } else {
        assert [] + rest == rest;
      }
    }
  }

  lemma {:induction false} NoEventsOut(out: seq<Out>, t: Tag)
    requires forall o :: o in out ==> !(o.cmd.Events? && o.cmd.tag == t)
    ensures OutEvents(out, t) == []
    decreases |out|
  {
    if out != [] {
      assert out[0] in out;
      NoEventsOut(out[1..], t);
    }
  }

  lemma {:induction false} PostedEvents(downstreams: map<Tag, StageId>, ds: seq<Delivery>, t: Tag)
    requires forall i :: 0 <= i < |ds| ==> ds[i].tag in downstreams
    ensures OutEvents(Posted(downstreams, ds), t) == EventsFor(ds, t)
    decreases |ds|
  {
    if ds != [] {
      PostedEvents(downstreams, ds[1..], t);
      assert Posted(downstreams, ds)[1..] == Posted(downstreams, ds[1..]);
    }
  }

  lemma {:induction false} RoutedTagged(events: seq<Value>, to: set<Tag>, t: Tag)
    ensures RoutedTo(Tagged(events, to), t) == if t in to then events else []
    decreases |events|
  {
    if events != [] {
      RoutedTagged(events[1..], to, t);
      assert Tagged(events, to)[1..] == Tagged(events[1..], to);
    }
  }

  lemma {:induction false} RoutedLost(events: seq<Value>, t: Tag)
    ensures RoutedTo(LostLog(events), t) == []
    decreases |events|
  {
    if events != [] {
      RoutedLost(events[1..], t);
      assert LostLog(events)[1..] == LostLog(events[1..]);
    }
  }

  lemma {:induction false} RoutedDeliveries(ds: seq<Delivery>, t: Tag)
    ensures RoutedTo(DeliveryLog(ds), t) == EventsFor(ds, t)
    decreases |ds|
  {
    if ds != [] {
      RoutedDeliveries(ds[1..], t);
      RoutedAppend(Tagged(ds[0].events, {ds[0].tag}), DeliveryLog(ds[1..]), t);
      RoutedTagged(ds[0].events, {ds[0].tag}, t);
    }
  }

  lemma {:induction false} CopiesFor(batch: seq<Value>, subs: seq<ConsumerDemand>, t: Tag)
    requires DistinctTags(subs)
    ensures EventsFor(Copies(batch, subs), t) == if t in TagsOf(subs) then batch else []
    decreases |subs|
  {
    if subs != [] {
      var rest := subs[1..];
      TailTags(subs);
      hide TagsOf, Copies, DistinctTags;
      CopiesFor(batch, rest, t);
      CopiesHead(batch, subs);
      assert batch + [] == batch && [] + EventsFor(Copies(batch, rest), t) == EventsFor(Copies(batch, rest), t);
    }
  }

  lemma TailTags(subs: seq<ConsumerDemand>)
    requires subs != [] && DistinctTags(subs)
    ensures DistinctTags(subs[1..]) && subs[0].tag !in TagsOf(subs[1..])
    ensures TagsOf(subs) == [subs[0].tag] + TagsOf(subs[1..])
  {
  }

  lemma CopiesHead(batch: seq<Value>, subs: seq<ConsumerDemand>)
    requires subs != []
    ensures var ds := Copies(batch, subs); ds != [] && ds[0] == Delivery(subs[0].tag, batch) && ds[1..] == Copies(batch, subs[1..])
  {
  }

  lemma BroadcastTags(events: seq<Value>, subs: seq<ConsumerDemand>)
    ensures var ds := BroadcastDispatch(events, subs).deliveries;
            ds != [] ==> forall t :: t in (set x | x in ds :: x.tag) <==> t in TagsOf(subs)
  {
    var ds := BroadcastDispatch(events, subs).deliveries;
    if ds != [] {
      forall t ensures t in (set x | x in ds :: x.tag) <==> t in TagsOf(subs) {
        if t in TagsOf(subs) {
          var i :| 0 <= i < |subs| && TagsOf(subs)[i] == t;
          assert ds[i] in ds && ds[i].tag == t;
        }
        if x :| x in ds && x.tag == t {
          var i :| 0 <= i < |ds| && ds[i] == x;
          assert TagsOf(subs)[i] == t;
        }
      }
    }
  }

  lemma RouteLogFlow(d: Dispatcher, events: seq<Value>, subs: seq<ConsumerDemand>, t: Tag)
    requires DistinctTags(subs)
    ensures var ds := Dispatch(d, events, subs).deliveries; RoutedTo(RouteLog(d, ds), t) == EventsFor(ds, t)
  {
    var ds := Dispatch(d, events, subs).deliveries;
    match d
    case DemandDispatcher => RoutedDeliveries(ds, t);
    case BroadcastDispatcher =>
      if ds != [] {
        BroadcastTags(events, subs);
        RoutedTagged(ds[0].events, set x | x in ds :: x.tag, t);
        CopiesFor(ds[0].events, subs, t);
      }
  }

  lemma BatchFlow(st: Stage, events: seq<Value>, t: Tag)
    requires Wired(st)
    ensures var ds := Dispatch(st.dispatcher, events, st.demands).deliveries;
            OutEvents(Deliver(st.downstreams, ds, AlwaysOpen).out, t) == RoutedTo(RouteLog(st.dispatcher, ds), t)
  {
    var ds := Dispatch(st.dispatcher, events, st.demands).deliveries;
    DispatchDeliverable(st, events);
    DeliverOpen(st.downstreams, ds);
    PostedEvents(st.downstreams, ds, t);
    RouteLogFlow(st.dispatcher, events, st.demands, t);
  }

  lemma ShipFlow(st: Stage, events: seq<Value>, t: Tag)
    requires Wired(st)
    ensures OutEvents(DispatchAndDeliver(st, events, AlwaysOpen).out, t) == RoutedTo(ShipLog(st, events), t)
  {
    hide Dispatch, Wired, Deliver, RouteLog, LostLog, Overflow, BufferLeftover, RoutedTo, OutEvents;
    if events == [] {
      NothingFlows(t);
    } else {
      BatchFlow(st, events, t);
      var d := Dispatch(st.dispatcher, events, st.demands);
      var lost := Overflow(st.buffer, d.leftover);
      RoutedAppend(RouteLog(st.dispatcher, d.deliveries), LostLog(lost), t);
      RoutedLost(lost, t);
    }
  }

  lemma NothingFlows(t: Tag)
    ensures OutEvents([], t) == RoutedTo([], t) == []
  {
  }

  lemma DrainFlow(st: Stage, t: Tag)
    requires Wired(st)
    ensures OutEvents(DrainBuffer(st, AlwaysOpen).out, t) == RoutedTo(DrainLog(st), t)
  {
    hide Dispatch, Wired, Deliver, RouteLog, BufferLeftover, RoutedTo, OutEvents;
    NothingFlows(t);
    BatchFlow(st, st.buffer, t);
  }

  lemma AskFlow(st: Stage, tag: Tag, demand: nat, cb: Callback, t: Tag)
    requires Wired(st)
    ensures OutEvents(HandleAsk(st, tag, demand, cb.produced, AlwaysOpen).out, t) ==
            RoutedTo(Fates(st, AskDemand(tag, demand), cb), t)
  {
    hide DrainBuffer, DispatchAndDeliver, Wired, ShipLog, DrainLog, TotalDemand, TagsOf, RoutedTo;
    var cmd := AskDemand(tag, demand);
    NothingFlows(t);
    if tag in st.upstreams {
      NoEventsOut(HandleAsk(st, tag, demand, cb.produced, AlwaysOpen).out, t);
    } else {
      var st1 := st.(demands := AddDemand(st.demands, tag, demand));
      AddDemandPending(st.demands, tag, demand, tag);
      SameTagsWired(st, st1);
      var drained := DrainBuffer(st1, AlwaysOpen);
      DispatchShips(st1, [], tag);
      SameTagsWired(st1, drained.stage);
      DrainFlow(st1, t);
      var added := Emitted(st, cmd, cb);
      ShipFlow(drained.stage, added, t);
      ShipNothing(drained.stage);
      var more := DispatchAndDeliver(drained.stage, added, AlwaysOpen);
      OutAppend(drained.out, more.out, t);
      RoutedAppend(DrainLog(st1), ShipLog(drained.stage, added), t);
      assert HandleAsk(st, tag, demand, cb.produced, AlwaysOpen).out == drained.out + more.out;
    }
  }

  /** What a handler sends to each subscription is exactly what its log routes there. */
  lemma HandleFlow(st: Stage, cmd: Command, cb: Callback, t: Tag)
    requires Wired(st)
    ensures OutEvents(Handle(st, cmd, cb, AlwaysOpen).out, t) == RoutedTo(Fates(st, cmd, cb), t)
  {
    hide DispatchAndDeliver, DrainBuffer, Wired, AfterDrain, AsksProducer, RoutedTo, OutEvents, Without;
    NothingFlows(t);
    match cmd
    case Subscribe(tag, consumer, opts) => NoEventsOut(Handle(st, cmd, cb, AlwaysOpen).out, t);
    case Confirmed(tag, producer, opts) => NoEventsOut(Handle(st, cmd, cb, AlwaysOpen).out, t);
    case Cancel(tag) => NoEventsOut(Handle(st, cmd, cb, AlwaysOpen).out, t);
    case AskDemand(tag, demand) => AskFlow(st, tag, demand, cb, t);
    case Events(tag, events) =>
      ShipFlow(st, cb.emitted, t);
      var fwd := if st.kind == ProducerConsumer then DispatchAndDeliver(st, cb.emitted, AlwaysOpen) else Step(st, []);
      var asked := Replenish(fwd.stage, tag, |events|, AlwaysOpen);
      NoEventsOut(asked.out, t);
      OutAppend(fwd.out, asked.out, t);
    case Emit => ShipFlow(st, cb.emitted, t);
  }

  // ---------------------------------------------------------------------------
  // Who an event goes to
  // ---------------------------------------------------------------------------

  /** Sequential: exactly one subscriber. Broadcast: all of them. */
  ghost predicate WellAimed(d: Dispatcher, tags: set<Tag>, f: Fate)
  {
    f.Routed? ==>
      match d
      case DemandDispatcher => exists t :: t in tags && f.to == {t}
      case BroadcastDispatcher => f.to == tags
  }

  ghost predicate AllAimed(d: Dispatcher, tags: set<Tag>, log: seq<Fate>)
  {
    forall i :: 0 <= i < |log| ==> WellAimed(d, tags, log[i])
  }

  ghost function TagSet(subs: seq<ConsumerDemand>): set<Tag>
  {
    set t | t in TagsOf(subs)
  }

  lemma {:induction false} DeliveriesAimed(ds: seq<Delivery>, tags: set<Tag>)
    requires forall x :: x in ds ==> x.tag in tags
    ensures AllAimed(DemandDispatcher, tags, DeliveryLog(ds))
    decreases |ds|
  {
    if ds != [] {
      assert ds[0] in ds;
      DeliveriesAimed(ds[1..], tags);
      forall i | 0 <= i < |ds[0].events| ensures WellAimed(DemandDispatcher, tags, Tagged(ds[0].events, {ds[0].tag})[i]) {
        assert ds[0].tag in tags;
      }
    }
  }

  lemma RouteAimed(d: Dispatcher, events: seq<Value>, subs: seq<ConsumerDemand>)
    ensures AllAimed(d, TagSet(subs), RouteLog(d, Dispatch(d, events, subs).deliveries))
  {
    var ds := Dispatch(d, events, subs).deliveries;
    match d
    case DemandDispatcher =>
      DeliveriesAreSubscribed(d, events, subs);
      DeliveriesAimed(ds, TagSet(subs));
    case BroadcastDispatcher =>
      BroadcastTags(events, subs);
      if ds != [] { assert (set x | x in ds :: x.tag) == TagSet(subs); }
  }

  lemma ShipAimed(st: Stage, events: seq<Value>)
    ensures AllAimed(st.dispatcher, TagSet(st.demands), ShipLog(st, events))
    ensures AllAimed(st.dispatcher, TagSet(st.demands), DrainLog(st))
  {
    hide Dispatch, RouteLog;
    RouteAimed(st.dispatcher, events, st.demands);
    RouteAimed(st.dispatcher, st.buffer, st.demands);
  }

  lemma HandleAimed(st: Stage, cmd: Command, cb: Callback)
    requires Wired(st)
    ensures AllAimed(st.dispatcher, TagSet(st.demands), Fates(st, cmd, cb))
  {
    hide ShipLog, DrainLog, DrainBuffer, Wired, AsksProducer, WellAimed, TagsOf;
    match cmd
    case AskDemand(tag, demand) =>
      var st1 := st.(demands := AddDemand(st.demands, tag, demand));
      AddDemandPending(st.demands, tag, demand, tag);
      SameTagsWired(st, st1);
      DispatchShips(st1, [], tag);
      ShipAimed(st1, []);
      ShipAimed(AfterDrain(st, tag, demand), Emitted(st, cmd, cb));
    case _ => ShipAimed(st, Emitted(st, cmd, cb));
  }

  // ---------------------------------------------------------------------------
  // Runs with their history
  // ---------------------------------------------------------------------------

  datatype History = History(emitted: seq<Value>, log: seq<Fate>)

  /** A network together with what was emitted and routed by each stage, where in
      its producer's log each subscriber joined, and what each consumer handled. */
  datatype Trace = Trace(
    net: Network,
    hist: map<StageId, History>,
    joined: map<Tag, nat>,
    handled: map<Tag, seq<Value>>)

  function Hist(tr: Trace, s: StageId): History
  {
    if s in tr.hist then tr.hist[s] else History([], [])
  }

  function Handled(tr: Trace, t: Tag): seq<Value>
  {
    if t in tr.handled then tr.handled[t] else []
  }

  function Follow(tr: Trace, a: Action): Trace
    requires Enabled(tr.net, a)
  {
    var net' := Apply(tr.net, a);
    if !a.Process? then tr.(net := net') else
      var st, cmd := tr.net.stages[a.at], Box(tr.net.inbox, a.at)[0];
      var h := Hist(tr, a.at);
      Trace(
        net',
        tr.hist[a.at := History(h.emitted + Emitted(st, cmd, a.cb), h.log + Fates(st, cmd, a.cb))],
        if cmd.Subscribe? then tr.joined[cmd.tag := |h.log|] else tr.joined,
        if cmd.Events? then tr.handled[cmd.tag := Handled(tr, cmd.tag) + cmd.events] else tr.handled)
  }

  function Record(run: seq<Action>): Trace
  {
    if run == [] then Trace(Exec([]), map[], map[], map[])
    else
      var tr := Record(run[..|run| - 1]);
      var a := run[|run| - 1];
      if Enabled(tr.net, a) then Follow(tr, a) else tr
  }

  lemma {:induction false} RecordFollowsExec(run: seq<Action>)
    ensures Record(run).net == Exec(run)
    decreases |run|
  {
    if run != [] { RecordFollowsExec(run[..|run| - 1]); }
  }

  /** Emission order is promised for a sequential stage, and for a broadcast
      stage none of whose subscriptions was cancelled. */
  ghost predicate Orderly(n: Network, s: StageId)
  {
    At(n, s).dispatcher == DemandDispatcher || forall t :: t in n.cancelled ==> Ends(n, t).producer != s
  }

  ghost predicate StageOk(tr: Trace, s: StageId)
  {
    Orderly(tr.net, s) ==>
      && Settled(At(tr.net, s))
      && EventsOf(Hist(tr, s).log) + At(tr.net, s).buffer == Hist(tr, s).emitted
  }

  ghost predicate FlowOk(tr: Trace, t: Tag)
  {
    var p, c := Ends(tr.net, t).producer, Ends(tr.net, t).consumer;
    t in tr.net.links ==>
      RoutedTo(Hist(tr, p).log, t) == Handled(tr, t) + InTransit(Box(tr.net.inbox, c), t)
  }

  /** A subscriber is served from the point where it joined, and by a broadcast
      stage with everything sent since. */
  ghost predicate JoinOk(tr: Trace, t: Tag)
  {
    var p := Ends(tr.net, t).producer;
    var log := Hist(tr, p).log;
    t in tr.net.links ==>
      && Tally(Box(tr.net.inbox, p), Subs, t) + (if t in tr.joined then 1 else 0) == 1
      && (t in At(tr.net, p).downstreams ==> t in tr.joined)
      && (t !in tr.joined ==> forall i :: 0 <= i < |log| && log[i].Routed? ==> t !in log[i].to)
      && (t in tr.joined ==>
            && tr.joined[t] <= |log|
            && (forall i :: 0 <= i < tr.joined[t] && log[i].Routed? ==> t !in log[i].to)
            && (t in At(tr.net, p).downstreams && At(tr.net, p).dispatcher == BroadcastDispatcher ==>
                  forall i :: tr.joined[t] <= i < |log| && log[i].Routed? ==> t in log[i].to))
  }

  ghost predicate AimOk(tr: Trace, s: StageId)
  {
    At(tr.net, s).dispatcher == DemandDispatcher ==>
      forall i :: 0 <= i < |Hist(tr, s).log| && Hist(tr, s).log[i].Routed? ==> |Hist(tr, s).log[i].to| == 1
  }

  ghost predicate ScopeOk(tr: Trace, s: StageId)
  {
    forall i :: 0 <= i < |Hist(tr, s).log| && Hist(tr, s).log[i].Routed? ==> Hist(tr, s).log[i].to <= tr.net.links.Keys
  }

  ghost predicate TraceInv(tr: Trace)
  {
    && Inv(tr.net)
    && (forall s :: StageOk(tr, s) && AimOk(tr, s) && ScopeOk(tr, s))
    && (forall t :: FlowOk(tr, t) && JoinOk(tr, t))
    && (forall s :: s !in tr.net.stages ==> Hist(tr, s) == History([], []))
    && tr.joined.Keys <= tr.net.links.Keys
    && tr.net.cancelled <= tr.net.links.Keys
    && tr.handled.Keys <= tr.net.links.Keys
  }

  lemma CancelAtOrderly(n: Network, s: StageId, cmd: Command)
    requires s in n.stages && Placed(n, s, cmd) && StagePlaced(n, s) && Orderly(n, s)
    ensures cmd.Cancel? ==> CancelSafe(n.stages[s], cmd.tag)
  {
    hide Wired;
  }

  lemma StageStep(tr: Trace, s: StageId, cb: Callback, x: StageId)
    requires TraceInv(tr) && Enabled(tr.net, Process(s, cb))
    ensures StageOk(Follow(tr, Process(s, cb)), x)
  {
    hide Inv, Handle, Wired, Settled, Fates, Emitted, CancelSafe, FlowOk, JoinOk, AimOk, Justified, EventsOf, Rewired;
    var st, cmd := tr.net.stages[s], Box(tr.net.inbox, s)[0];
    var tr' := Follow(tr, Process(s, cb));
    assert StageOk(tr, x);
    if x == s && Orderly(tr'.net, s) {
      HeadFacts(tr.net, s, 0);
      ReactRoutes(tr.net, s, cb);
      SameKind(tr.net, s, cb);
      assert Orderly(tr.net, s);
      InvPlaced(tr.net, s);
      CancelAtOrderly(tr.net, s, cmd);
      HandleAccounted(st, cmd, cb);
      var h := Hist(tr, s);
      EventsOfAppend(h.log, Fates(st, cmd, cb));
      calc {
        EventsOf(Hist(tr', s).log) + At(tr'.net, s).buffer;
        EventsOf(h.log) + EventsOf(Fates(st, cmd, cb)) + At(tr'.net, s).buffer;
        EventsOf(h.log) + (EventsOf(Fates(st, cmd, cb)) + At(tr'.net, s).buffer);
        EventsOf(h.log) + (st.buffer + Emitted(st, cmd, cb));
        EventsOf(h.log) + st.buffer + Emitted(st, cmd, cb);
        Hist(tr', s).emitted;
      }
    }
  }

  lemma SameKind(n: Network, s: StageId, cb: Callback)
    requires Inv(n) && Enabled(n, Process(s, cb))
    ensures React(n, s, cb).stage.dispatcher == n.stages[s].dispatcher
  {
    hide Inv, Handle, Justified;
    ReactRoutes(n, s, cb);
  }

  lemma InvPlaced(n: Network, s: StageId)
    requires Inv(n)
    ensures StagePlaced(n, s)
  {
    hide StagePlaced, MailPlaced, Phased, Solvent;
  }

  /** What waits for `t` after a step: the head is consumed, the new events follow. */
  lemma TransitStep(n: Network, s: StageId, cb: Callback, t: Tag)
    requires Inv(n) && Enabled(n, Process(s, cb)) && t in n.links
    ensures var cmd, c := Box(n.inbox, s)[0], n.links[t].consumer;
            (if cmd.Events? && cmd.tag == t then cmd.events else []) + InTransit(Box(Apply(n, Process(s, cb)).inbox, c), t)
            == InTransit(Box(n.inbox, c), t) + OutEvents(React(n, s, cb).out, t)
  {
    hide Inv, Handle, Wired, Rewired, OutEvents, InTransit, Mail, Apply;
    var cmd, c, out := Box(n.inbox, s)[0], n.links[t].consumer, React(n, s, cb).out;
    HeadFacts(n, s, t);
    EventsAddressed(n, s, cb, t);
    MailTransit(out, c, c, t);
    BoxAfter(n, s, cb, c);
    var sent := OutEvents(out, t);
    var rest := if c == s then Box(n.inbox, s)[1..] else Box(n.inbox, c);
    TransitAppend(rest, Mail(out, c), t);
    TransitHead(Box(n.inbox, s), t);
    if c == s {
      var took := if cmd.Events? && cmd.tag == t then cmd.events else [];
      assert took + (InTransit(rest, t) + sent) == (took + InTransit(rest, t)) + sent;
    } else {
      assert [] + (InTransit(rest, t) + sent) == InTransit(rest, t) + sent;
    }
  }

  lemma TransitHead(cmds: seq<Command>, t: Tag)
    requires cmds != []
    ensures InTransit(cmds, t) ==
            (if cmds[0].Events? && cmds[0].tag == t then cmds[0].events else []) + InTransit(cmds[1..], t)
  {
  }

  /** Events for `t` leave only its producer and go only to its consumer. */
  lemma EventsAddressed(n: Network, s: StageId, cb: Callback, t: Tag)
    requires Inv(n) && Enabled(n, Process(s, cb)) && t in n.links
    ensures var out := React(n, s, cb).out;
            && (forall o :: o in out && o.cmd.Events? && o.cmd.tag == t ==> o.to == n.links[t].consumer)
            && (s != n.links[t].producer ==> OutEvents(out, t) == [])
  {
    hide Inv, Handle, Wired, Rewired, OutEvents;
    HeadFacts(n, s, t);
    ReactRoutes(n, s, cb);
    var out := React(n, s, cb).out;
    forall o | o in out && o.cmd.Events? && o.cmd.tag == t
      ensures o.to == n.links[t].consumer && s == n.links[t].producer
    {
      assert Justified(n.stages[s], Box(n.inbox, s)[0], o);
    }
    if s != n.links[t].producer { NoEventsOut(out, t); }
  }

  lemma FlowStep(tr: Trace, s: StageId, cb: Callback, t: Tag)
    requires TraceInv(tr) && Enabled(tr.net, Process(s, cb))
    ensures FlowOk(Follow(tr, Process(s, cb)), t)
  {
    hide Inv, Handle, Wired, Fates, Emitted, StageOk, JoinOk, AimOk, RoutedTo, OutEvents, InTransit, SendAll;
    var st, cmd, out := tr.net.stages[s], Box(tr.net.inbox, s)[0], React(tr.net, s, cb).out;
    assert FlowOk(tr, t);
    if t in tr.net.links {
      HeadFacts(tr.net, s, t);
      HandleFlow(st, cmd, cb, t);
      RoutedAppend(Hist(tr, s).log, Fates(st, cmd, cb), t);
      TransitStep(tr.net, s, cb, t);
      EventsAddressed(tr.net, s, cb, t);
      var took := if cmd.Events? && cmd.tag == t then cmd.events else [];
      var c := tr.net.links[t].consumer;
      var later := InTransit(Box(Apply(tr.net, Process(s, cb)).inbox, c), t);
      Regroup(Handled(tr, t), took, InTransit(Box(tr.net.inbox, c), t), later, OutEvents(out, t));
    }
  }

  lemma Regroup(handled: seq<Value>, took: seq<Value>, transit: seq<Value>, later: seq<Value>, sent: seq<Value>)
    requires took + later == transit + sent
    ensures (handled + took) + later == (handled + transit) + sent
    ensures took == [] ==> handled + later == (handled + transit) + sent
    ensures sent == [] ==> (handled + took) + later == handled + transit
    ensures took == [] && sent == [] ==> handled + later == handled + transit
  {
    assert (handled + took) + later == handled + (took + later);
    assert (handled + transit) + sent == handled + (transit + sent);
    assert handled + [] == handled;
    assert (handled + transit) + [] == handled + transit;
  }

  lemma AimStep(tr: Trace, s: StageId, cb: Callback, x: StageId)
    requires TraceInv(tr) && Enabled(tr.net, Process(s, cb))
    ensures AimOk(Follow(tr, Process(s, cb)), x)
  {
    hide Inv, Handle, Wired, Fates, Emitted, StageOk, JoinOk, FlowOk, Rewired, Justified;
    assert AimOk(tr, x);
    var tr' := Follow(tr, Process(s, cb));
    if x != s {
      assert Hist(tr', x) == Hist(tr, x) && At(tr'.net, x) == At(tr.net, x);
    } else {
      var st, cmd := tr.net.stages[s], Box(tr.net.inbox, s)[0];
      SameKind(tr.net, s, cb);
      HeadFacts(tr.net, s, 0);
      HandleAimed(st, cmd, cb);
      var before, fates := Hist(tr, s).log, Fates(st, cmd, cb);
      var log := Hist(tr', s).log;
      assert log == before + fates;
      if st.dispatcher == DemandDispatcher {
        forall i | 0 <= i < |log| && log[i].Routed?
          ensures |log[i].to| == 1
        {
          if i < |before| {
            assert log[i] == before[i];
          } else {
            assert WellAimed(st.dispatcher, TagSet(st.demands), fates[i - |before|]);
          }
        }
      }
    }
  }

  lemma ScopeStep(tr: Trace, s: StageId, cb: Callback, x: StageId)
    requires TraceInv(tr) && Enabled(tr.net, Process(s, cb))
    ensures ScopeOk(Follow(tr, Process(s, cb)), x)
  {
    hide Inv, Handle, Wired, Fates, Emitted, StageOk, JoinOk, FlowOk, AimOk, SendAll;
    assert ScopeOk(tr, x);
    var tr' := Follow(tr, Process(s, cb));
    if x != s {
      assert Hist(tr', x) == Hist(tr, x);
    } else {
      var st, cmd := tr.net.stages[s], Box(tr.net.inbox, s)[0];
      HeadFacts(tr.net, s, 0);
      InvPlaced(tr.net, s);
      var before, fates := Hist(tr, s).log, Fates(st, cmd, cb);
      var log := Hist(tr', s).log;
      assert log == before + fates;
      forall i, t | 0 <= i < |log| && log[i].Routed? && t in log[i].to
        ensures t in tr.net.links
      {
        if i < |before| {
          assert log[i] == before[i];
        } else {
          AimedAtSubscribers(st, cmd, cb, t);
          assert log[i] == fates[i - |before|];
        }
      }
    }
  }

  /** The tags an event can be routed to are the subscribers of the moment. */
  lemma AimedAtSubscribers(st: Stage, cmd: Command, cb: Callback, t: Tag)
    requires Wired(st)
    ensures var fates := Fates(st, cmd, cb);
            && (t !in st.downstreams ==> forall i :: 0 <= i < |fates| && fates[i].Routed? ==> t !in fates[i].to)
            && (t in st.downstreams && st.dispatcher == BroadcastDispatcher ==>
                  forall i :: 0 <= i < |fates| && fates[i].Routed? ==> t in fates[i].to)
  {
    hide Fates, Wired;
    HandleAimed(st, cmd, cb);
    if t in st.downstreams { DownstreamTag(st, t); } else { NotDownstreamNoPending(st, t); }
    var fates := Fates(st, cmd, cb);
    forall i | 0 <= i < |fates| ensures WellAimed(st.dispatcher, TagSet(st.demands), fates[i]) {}
  }

  lemma SubscribeRoutesNothing(st: Stage, cmd: Command, cb: Callback)
    ensures cmd.Subscribe? ==> Fates(st, cmd, cb) == []
  {
  }

  lemma JoinStep(tr: Trace, s: StageId, cb: Callback, t: Tag)
    requires TraceInv(tr) && Enabled(tr.net, Process(s, cb))
    ensures JoinOk(Follow(tr, Process(s, cb)), t)
  {
    hide Inv, Handle, Wired, Fates, Emitted, StageOk, FlowOk, AimOk, Justified, Tally, Mail, Sent, Solvent, Phased;
    var st, cmd, r := tr.net.stages[s], Box(tr.net.inbox, s)[0], React(tr.net, s, cb);
    assert JoinOk(tr, t);
    if t in tr.net.links {
      var p := tr.net.links[t].producer;
      HeadFacts(tr.net, s, t);
      ReactRoutes(tr.net, s, cb);
      TallyAfter(tr.net, s, cb, p, Subs, t);
      MailAddressed(tr.net, s, cb, t, p);
      AimedAtSubscribers(st, cmd, cb, t);
      SubscribeRoutesNothing(st, cmd, cb);
      if s == p {
        if !(cmd.Subscribe? && cmd.tag == t) && !(cmd.Cancel? && cmd.tag == t) { assert SameDownstream(st, r.stage, t); }
      }
    }
  }

  lemma FollowKeepsInv(tr: Trace, s: StageId, cb: Callback)
    requires TraceInv(tr) && Enabled(tr.net, Process(s, cb))
    ensures TraceInv(Follow(tr, Process(s, cb)))
  {
    hide Inv, Handle, Fates, Emitted, StageOk, FlowOk, AimOk, JoinOk, ScopeOk, Box;
    var tr' := Follow(tr, Process(s, cb));
    ProcessKeepsInv(tr.net, s, cb);
    HeadFacts(tr.net, s, 0);
    forall x ensures StageOk(tr', x) && AimOk(tr', x) && ScopeOk(tr', x) {
      StageStep(tr, s, cb, x);
      AimStep(tr, s, cb, x);
      ScopeStep(tr, s, cb, x);
    }
    forall t ensures FlowOk(tr', t) && JoinOk(tr', t) { FlowStep(tr, s, cb, t); JoinStep(tr, s, cb, t); }
  }

  // Client actions add one command that carries no event.

  lemma {:induction false} RoutedNowhere(log: seq<Fate>, t: Tag)
    requires forall i :: 0 <= i < |log| && log[i].Routed? ==> t !in log[i].to
    ensures RoutedTo(log, t) == []
    decreases |log|
  {
    if log != [] {
      assert t !in (if log[0].Routed? then log[0].to else {});
      RoutedNowhere(log[1..], t);
    }
  }

  lemma {:induction false} UnusedTransit(n: Network, cmds: seq<Command>, s: StageId, t: Tag)
    requires t !in n.links
    requires forall cmd :: cmd in cmds ==> Placed(n, s, cmd)
    ensures InTransit(cmds, t) == []
    decreases |cmds|
  {
    if cmds != [] {
      assert cmds[0] in cmds;
      assert Placed(n, s, cmds[0]);
      UnusedTransit(n, cmds[1..], s, t);
    }
  }

  lemma PostTransit(inbox: map<StageId, seq<Command>>, o: Out, x: StageId, t: Tag)
    requires !o.cmd.Events?
    ensures InTransit(Box(Post(inbox, o), x), t) == InTransit(Box(inbox, x), t)
  {
    TransitAppend(Box(inbox, x), [o.cmd], t);
    assert InTransit([o.cmd], t) == [];
  }

  lemma PostKeepsTag(tr: Trace, net': Network, o: Out, t: Tag)
    requires FlowOk(tr, t) && JoinOk(tr, t) && t in tr.net.links
    requires Posting(tr.net, net', o) && !o.cmd.Events? && Weight(o.cmd, Subs, t) == 0
    ensures FlowOk(tr.(net := net'), t) && JoinOk(tr.(net := net'), t)
  {
    hide InTransit, Tally, RoutedTo;
    var p, c := tr.net.links[t].producer, tr.net.links[t].consumer;
    PostTransit(tr.net.inbox, o, c, t);
    PostBox(tr.net.inbox, o, p, Subs, t);
  }

  lemma PostKeepsTrace(tr: Trace, net': Network, o: Out)
    requires TraceInv(tr) && Inv(net') && Posting(tr.net, net', o) && !o.cmd.Events? && !o.cmd.Subscribe?
    requires net'.links == tr.net.links && net'.cancelled <= net'.links.Keys
    ensures TraceInv(tr.(net := net'))
  {
    hide Inv, FlowOk, JoinOk;
    var tr' := tr.(net := net');
    forall s ensures StageOk(tr', s) && AimOk(tr', s) && ScopeOk(tr', s) {
      assert StageOk(tr, s) && AimOk(tr, s) && ScopeOk(tr, s) && Hist(tr', s) == Hist(tr, s);
      assert Orderly(net', s) ==> Orderly(tr.net, s);
    }
    forall t ensures FlowOk(tr', t) && JoinOk(tr', t) {
      if t in tr.net.links { PostKeepsTag(tr, net', o, t); } else { UnlinkedTag(tr', t); }
    }
  }

  lemma UnlinkedTag(tr: Trace, t: Tag)
    requires t !in tr.net.links
    ensures FlowOk(tr, t) && JoinOk(tr, t)
  {
  }

  lemma NewTag(tr: Trace, tag: Tag, link: Link, opts: SubscribeOpts)
    requires TraceInv(tr) && Enabled(tr.net, ClientSubscribe(tag, link, opts))
    ensures FlowOk(Follow(tr, ClientSubscribe(tag, link, opts)), tag)
    ensures JoinOk(Follow(tr, ClientSubscribe(tag, link, opts)), tag)
  {
    hide Tally, InTransit, RoutedTo, Phased, Solvent, StageOk, AimOk, FlowOk, Wired;
    var p, c := link.producer, link.consumer;
    var n, o := tr.net, Out(p, Subscribe(tag, c, opts));
    assert MailPlaced(n, p) && MailPlaced(n, c) && StagePlaced(n, p) && ScopeOk(tr, p);
    UnusedTransit(n, Box(n.inbox, c), c, tag);
    UnusedTag(n, Box(n.inbox, p), p, Subs, tag);
    PostTransit(n.inbox, o, c, tag);
    PostBox(n.inbox, o, p, Subs, tag);
    RoutedNowhere(Hist(tr, p).log, tag);
    NewTagFlow(Follow(tr, ClientSubscribe(tag, link, opts)), tag);
  }

  lemma NewTagFlow(tr: Trace, t: Tag)
    requires RoutedTo(Hist(tr, Ends(tr.net, t).producer).log, t) == []
    requires InTransit(Box(tr.net.inbox, Ends(tr.net, t).consumer), t) == [] && t !in tr.handled
    ensures FlowOk(tr, t)
  {
  }

  lemma SubscribeKeepsTrace(tr: Trace, tag: Tag, link: Link, opts: SubscribeOpts)
    requires TraceInv(tr) && Enabled(tr.net, ClientSubscribe(tag, link, opts))
    ensures TraceInv(Follow(tr, ClientSubscribe(tag, link, opts)))
  {
    hide Inv, FlowOk, JoinOk;
    var tr' := Follow(tr, ClientSubscribe(tag, link, opts));
    SubscribeKeepsInv(tr.net, tag, link, opts);
    forall s ensures StageOk(tr', s) && AimOk(tr', s) && ScopeOk(tr', s) {
      assert StageOk(tr, s) && AimOk(tr, s) && ScopeOk(tr, s) && Hist(tr', s) == Hist(tr, s);
      assert Orderly(tr'.net, s) ==> Orderly(tr.net, s) by {
        assert forall t :: t in tr.net.cancelled ==> Ends(tr'.net, t) == Ends(tr.net, t);
      }
    }
    NewTag(tr, tag, link, opts);
    forall t ensures FlowOk(tr', t) && JoinOk(tr', t) {
      if t in tr.net.links {
        PostKeepsTag(tr, tr'.net, Out(link.producer, Subscribe(tag, link.consumer, opts)), t);
      } else if t != tag {
        UnlinkedTag(tr', t);
      }
    }
  }

  lemma SpawnKeepsTrace(tr: Trace, id: StageId, kind: StageType, dispatcher: Dispatcher)
    requires TraceInv(tr) && id !in tr.net.stages
    ensures TraceInv(Follow(tr, Spawn(id, kind, dispatcher)))
  {
    hide Inv, RoutedTo, InTransit, Tally;
    var tr' := Follow(tr, Spawn(id, kind, dispatcher));
    SpawnKeepsInv(tr.net, id, kind, dispatcher);
    forall s ensures StageOk(tr', s) && AimOk(tr', s) && ScopeOk(tr', s) {
      assert StageOk(tr, s) && AimOk(tr, s) && ScopeOk(tr, s) && Hist(tr', s) == Hist(tr, s);
    }
    forall t ensures FlowOk(tr', t) && JoinOk(tr', t) {
      assert FlowOk(tr, t) && JoinOk(tr, t);
      if t in tr.net.links { LinkedStages(tr.net, t); }
    }
  }

  lemma LinkedStages(n: Network, t: Tag)
    requires Inv(n) && t in n.links
    ensures n.links[t].producer in n.stages && n.links[t].consumer in n.stages
  {
    hide StagePlaced, MailPlaced, Phased, Solvent;
  }

  lemma FollowKeepsTrace(tr: Trace, a: Action)
    requires TraceInv(tr) && Enabled(tr.net, a)
    ensures TraceInv(Follow(tr, a))
  {
    hide Inv, FlowOk, JoinOk, StageOk, AimOk, ScopeOk, React;
    ApplyKeepsInv(tr.net, a);
    var net' := Apply(tr.net, a);
    match a
    case Process(s, cb) => FollowKeepsInv(tr, s, cb);
    case ClientSubscribe(tag, link, opts) => SubscribeKeepsTrace(tr, tag, link, opts);
    case Spawn(id, kind, dispatcher) => SpawnKeepsTrace(tr, id, kind, dispatcher);
    case ClientCancel(at, tag) => PostKeepsTrace(tr, net', Out(at, Cancel(tag)));
    case ClientAsk(at, tag, demand) => PostKeepsTrace(tr, net', Out(at, AskDemand(tag, demand)));
    case ClientEmit(at) => PostKeepsTrace(tr, net', Out(at, Emit));
  }

  lemma {:induction false} TraceAlways(run: seq<Action>)
    ensures TraceInv(Record(run))
    decreases |run|
  {
    if run == [] {
      InvAlways([]);
    } else {
      TraceAlways(run[..|run| - 1]);
      var tr, a := Record(run[..|run| - 1]), run[|run| - 1];
      if Enabled(tr.net, a) { FollowKeepsTrace(tr, a); }
    }
  }

  // ---------------------------------------------------------------------------
  // Main results
  // ---------------------------------------------------------------------------

  /** Emission order. In every run, the events a stage has routed or lost to
      overflow, in log order, followed by its buffer, are exactly what it emitted;
      and while events wait, nothing further could be sent. */
  lemma EmissionOrder(run: seq<Action>, s: StageId)
    ensures var tr := Record(run);
            tr.net == Exec(run) &&
            (Orderly(tr.net, s) ==>
               && EventsOf(Hist(tr, s).log) + At(tr.net, s).buffer == Hist(tr, s).emitted
               && (At(tr.net, s).buffer != [] ==> Saturated(At(tr.net, s).dispatcher, At(tr.net, s).demands)))
  {
    TraceAlways(run);
    RecordFollowsExec(run);
    assert StageOk(Record(run), s);
  }

  /** Demand dispatch keeps events: every event of a sequential stage went to
      exactly one subscription, was lost to overflow, or is buffered, and a
      non-empty buffer means no consumer has demand left. */
  lemma DemandKeepsEvents(run: seq<Action>, s: StageId)
    ensures var tr := Record(run);
            var st, h := At(tr.net, s), Hist(tr, s);
            st.dispatcher == DemandDispatcher ==>
              && EventsOf(h.log) + st.buffer == h.emitted
              && (forall i :: 0 <= i < |h.log| && h.log[i].Routed? ==> |h.log[i].to| == 1)
              && (st.buffer != [] ==> forall i :: 0 <= i < |st.demands| ==> st.demands[i].pending == 0)
  {
    TraceAlways(run);
    EmissionOrder(run, s);
    assert AimOk(Record(run), s);
  }

  /** End to end: what a consumer has handled, followed by what is in its channel,
      is what its producer routed to it, in emission order. */
  lemma ConsumerSeesEmissionOrder(run: seq<Action>, t: Tag)
    ensures var tr := Record(run);
            t in tr.net.links ==>
              Handled(tr, t) + InTransit(Box(tr.net.inbox, tr.net.links[t].consumer), t) ==
              RoutedTo(Hist(tr, tr.net.links[t].producer).log, t)
  {
    TraceAlways(run);
    assert FlowOk(Record(run), t);
  }

  lemma {:induction false} RoutedSince(log: seq<Fate>, from: nat, t: Tag)
    requires from <= |log|
    requires forall i :: 0 <= i < |log| ==> log[i].Routed?
    requires forall i :: 0 <= i < from ==> t !in log[i].to
    requires forall i :: from <= i < |log| ==> t in log[i].to
    ensures RoutedTo(log, t) == EventsOf(log[from..])
    decreases |log|
  {
    if log != [] {
      var next := if from == 0 then 0 else from - 1;
      RoutedSince(log[1..], next, t);
      if from == 0 {
        assert log[0..] == log;
        assert log[1..][0..] == log[1..];
        assert EventsOf(log) == [log[0].event] + EventsOf(log[1..]);
      } else {
        assert log[1..][next..] == log[from..];
      }
    }
  }

  /** Broadcast agreement: as long as nothing overflowed and nobody cancelled,
      what a subscriber handled, what is on its way and the buffer together are
      everything emitted since it joined. */
  lemma BroadcastAgreement(run: seq<Action>, t: Tag)
    ensures var tr := Record(run);
            t in tr.net.links ==>
              var p, c := tr.net.links[t].producer, tr.net.links[t].consumer;
              var st, h := At(tr.net, p), Hist(tr, p);
              st.dispatcher == BroadcastDispatcher && Orderly(tr.net, p) && t in st.downstreams &&
              (forall i :: 0 <= i < |h.log| ==> h.log[i].Routed?) ==>
                && t in tr.joined && tr.joined[t] <= |h.emitted|
                && Handled(tr, t) + InTransit(Box(tr.net.inbox, c), t) + st.buffer == h.emitted[tr.joined[t]..]
  {
    hide RoutedTo, InTransit, TraceInv, Orderly, Box;
    TraceAlways(run);
    var tr := Record(run);
    if t in tr.net.links {
      AgreementAt(tr, t);
    }
  }

  lemma AgreementAt(tr: Trace, t: Tag)
    requires TraceInv(tr) && t in tr.net.links
    ensures var p, c := tr.net.links[t].producer, tr.net.links[t].consumer;
            var st, h := At(tr.net, p), Hist(tr, p);
            st.dispatcher == BroadcastDispatcher && Orderly(tr.net, p) && t in st.downstreams &&
            (forall i :: 0 <= i < |h.log| ==> h.log[i].Routed?) ==>
              && t in tr.joined && tr.joined[t] <= |h.emitted|
              && Handled(tr, t) + InTransit(Box(tr.net.inbox, c), t) + st.buffer == h.emitted[tr.joined[t]..]
  {
    hide RoutedTo, InTransit, Tally, Settled, Inv, AimOk, ScopeOk, EventsOf, Orderly;
    var p := tr.net.links[t].producer;
    var st, h := At(tr.net, p), Hist(tr, p);
    assert FlowOk(tr, t) && JoinOk(tr, t) && StageOk(tr, p);
    if st.dispatcher == BroadcastDispatcher && Orderly(tr.net, p) && t in st.downstreams &&
       forall i :: 0 <= i < |h.log| ==> h.log[i].Routed?
    {
      var from := tr.joined[t];
      RoutedSince(h.log, from, t);
      EventsOfDrop(h.log, from);
      assert h.emitted[from..] == EventsOf(h.log)[from..] + st.buffer;
    }
  }

  lemma EventsOfDrop(log: seq<Fate>, from: nat)
    requires from <= |log|
    ensures |EventsOf(log)| == |log| && EventsOf(log)[from..] == EventsOf(log[from..])
  {
  }
}

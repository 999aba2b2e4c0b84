/** Credit conservation: the demand a consumer has outstanding is always
    somewhere - in an ask on its way, in the producer's books, or in events on
    their way back. */
module StageCredit {
  import opened Values
  import opened StageDispatch
  import opened StageLoop
  import opened StageNetwork

  // ---------------------------------------------------------------------------
  // One stage
  // ---------------------------------------------------------------------------

  /** Demand the stage has asked for on `t` and not yet been served. */
  function Owed(st: Stage, t: Tag): nat
  {
    if t in st.upstreams && st.upstreams[t].mode == Automatic then st.upstreams[t].outstanding else 0
  }

  /** What the stage's books say about `t`: credit it is owed minus credit it owes. */
  function Balance(st: Stage, t: Tag): int
  {
    Owed(st, t) - PendingFor(st.demands, t)
  }

  /** Every demand record belongs to a distinct live downstream. */
  ghost predicate Wired(st: Stage)
  {
    && DistinctTags(st.demands)
    && (forall i :: 0 <= i < |st.demands| ==> st.demands[i].tag in st.downstreams)
    && (forall t :: t in st.downstreams ==> t in TagsOf(st.demands))
  }

  function Posted(downstreams: map<Tag, StageId>, ds: seq<Delivery>): seq<Out>
    requires forall i :: 0 <= i < |ds| ==> ds[i].tag in downstreams
  {
    seq(|ds|, i requires 0 <= i < |ds| => Out(downstreams[ds[i].tag], Events(ds[i].tag, ds[i].events)))
  }

  lemma {:induction false} DeliverOpen(downstreams: map<Tag, StageId>, ds: seq<Delivery>)
    requires forall i :: 0 <= i < |ds| ==> ds[i].tag in downstreams
    ensures Deliver(downstreams, ds, AlwaysOpen) == Delivered(Posted(downstreams, ds), [], [])
    decreases |ds|
  {
    if ds != [] {
      var init := ds[..|ds| - 1];
      DeliverOpen(downstreams, init);
      assert Posted(downstreams, ds) ==
             Posted(downstreams, init) + [Out(downstreams[ds[|ds| - 1].tag], Events(ds[|ds| - 1].tag, ds[|ds| - 1].events))];
    }
  }

  lemma {:induction false} PostedCounts(downstreams: map<Tag, StageId>, ds: seq<Delivery>, t: Tag)
    requires forall i :: 0 <= i < |ds| ==> ds[i].tag in downstreams
    ensures Sent(Posted(downstreams, ds), Evs, t) == |EventsFor(ds, t)|
    ensures Sent(Posted(downstreams, ds), Asks, t) == 0
    decreases |ds|
  {
    if ds != [] {
      PostedCounts(downstreams, ds[1..], t);
      assert Posted(downstreams, ds)[1..] == Posted(downstreams, ds[1..]);
    }
  }

  /** The effect of one dispatch when every channel is open. */
  ghost predicate Shipped(st: Stage, r: Step, t: Tag)
  {
    && r.stage.(demands := st.demands, buffer := st.buffer) == st
    && TagsOf(r.stage.demands) == TagsOf(st.demands)
    && PendingFor(st.demands, t) == PendingFor(r.stage.demands, t) + Sent(r.out, Evs, t)
    && Sent(r.out, Asks, t) == 0
    && (forall o :: o in r.out ==> o.cmd.Events? && o.cmd.tag in st.downstreams && o.to == st.downstreams[o.cmd.tag])
  }

  lemma DispatchDeliverable(st: Stage, events: seq<Value>)
    requires Wired(st)
    ensures var ds := Dispatch(st.dispatcher, events, st.demands).deliveries;
            forall i :: 0 <= i < |ds| ==> ds[i].tag in st.downstreams
  {
    DeliveriesAreSubscribed(st.dispatcher, events, st.demands);
    var ds := Dispatch(st.dispatcher, events, st.demands).deliveries;
    forall i | 0 <= i < |ds| ensures ds[i].tag in st.downstreams {
      assert ds[i] in ds;
      var k :| 0 <= k < |TagsOf(st.demands)| && TagsOf(st.demands)[k] == ds[i].tag;
      assert st.demands[k].tag == ds[i].tag;
    }
  }

  lemma DispatchShips(st: Stage, events: seq<Value>, t: Tag)
    requires Wired(st)
    ensures Shipped(st, DispatchAndDeliver(st, events, AlwaysOpen), t)
    ensures Shipped(st, DrainBuffer(st, AlwaysOpen), t)
  {
    ShipBatch(st, events, t);
    ShipBatch(st, st.buffer, t);
  }

  lemma ShipBatch(st: Stage, events: seq<Value>, t: Tag)
    requires Wired(st)
    ensures var d := Dispatch(st.dispatcher, events, st.demands);
            var sent := Deliver(st.downstreams, d.deliveries, AlwaysOpen);
            sent.undelivered == [] && sent.dead == [] &&
            forall buffer :: Shipped(st, Step(st.(demands := d.demands, buffer := buffer), sent.out), t)
  {
    var d := Dispatch(st.dispatcher, events, st.demands);
    DispatchDeliverable(st, events);
    DeliverOpen(st.downstreams, d.deliveries);
    DispatchConservesDemand(st.dispatcher, events, st.demands, t);
    PostedCounts(st.downstreams, d.deliveries, t);
  }

  lemma {:induction false} PendingAppend(a: seq<ConsumerDemand>, b: seq<ConsumerDemand>, t: Tag)
    ensures PendingFor(a + b, t) == PendingFor(a, t) + PendingFor(b, t)
    decreases |a|
  {
    if a == [] {
      assert a + b == b;
    } else {
      assert (a + b)[1..] == a[1..] + b;
      PendingAppend(a[1..], b, t);
    }
  }

  lemma {:induction false} AddDemandPending(subs: seq<ConsumerDemand>, tag: Tag, demand: nat, t: Tag)
    ensures TagsOf(AddDemand(subs, tag, demand)) == TagsOf(subs)
    ensures PendingFor(AddDemand(subs, tag, demand), t) ==
            PendingFor(subs, t) + if t == tag && tag in TagsOf(subs) then demand else 0
    decreases |subs|
  {
    if subs != [] {
      assert TagsOf(subs) == [subs[0].tag] + TagsOf(subs[1..]);
      var added := AddDemand(subs, tag, demand);
      if subs[0].tag == tag {
        assert added[1..] == subs[1..];
        assert TagsOf(added) == [subs[0].tag] + TagsOf(subs[1..]);
      } else {
        AddDemandPending(subs[1..], tag, demand, t);
        assert added[1..] == AddDemand(subs[1..], tag, demand);
        assert TagsOf(added) == [subs[0].tag] + TagsOf(added[1..]);
      }
    }
  }

  lemma {:induction false} WithoutPending(subs: seq<ConsumerDemand>, tag: Tag, t: Tag)
    requires t != tag
    ensures PendingFor(Without(subs, tag), t) == PendingFor(subs, t)
    decreases |subs|
  {
    if subs != [] {
      WithoutPending(subs[1..], tag, t);
      var rest := Without(subs[1..], tag);
      if subs[0].tag == tag {
        assert [] + rest == rest;
      } else {
        assert ([subs[0]] + rest)[1..] == rest;
      }
    }
  }

  lemma SameTagsWired(st: Stage, st': Stage)
    requires Wired(st) && TagsOf(st'.demands) == TagsOf(st.demands) && st'.downstreams == st.downstreams
    ensures Wired(st')
  {
    assert |st'.demands| == |TagsOf(st'.demands)| == |st.demands|;
    forall i | 0 <= i < |st.demands| ensures st'.demands[i].tag == st.demands[i].tag {
      assert TagsOf(st'.demands)[i] == TagsOf(st.demands)[i];
    }
  }

  /** The commands about `t` that a stage can meet in a run where `t` is neither
      cancelled nor asked for by hand. */
  ghost predicate Expected(st: Stage, cmd: Command, t: Tag)
  {
    && !(cmd.Cancel? && cmd.tag == t)
    && (cmd.Confirmed? && cmd.tag == t ==> t !in st.upstreams)
    && Weight(cmd, Evs, t) <= Owed(st, t)
    && (Weight(cmd, Asks, t) > 0 ==> t in st.upstreams || t in TagsOf(st.demands))
  }

  /** The change of the books equals the credit sent minus the credit received. */
  ghost predicate Balanced(st: Stage, cmd: Command, r: Step, t: Tag)
  {
    Balance(r.stage, t) - Balance(st, t) ==
    Sent(r.out, Asks, t) - Weight(cmd, Asks, t) + Sent(r.out, Evs, t) - Weight(cmd, Evs, t)
  }

  lemma AskForwarded(st: Stage, tag: Tag, demand: nat, cb: Callback, t: Tag)
    requires tag in st.upstreams
    ensures Balanced(st, AskDemand(tag, demand), HandleAsk(st, tag, demand, cb.produced, AlwaysOpen), t)
  {
    hide PendingFor;
    var o := Out(st.upstreams[tag].producer, AskDemand(tag, demand));
    assert HandleAsk(st, tag, demand, cb.produced, AlwaysOpen) == Step(st, [o]);
    SentOne(o, Asks, t);
    SentOne(o, Evs, t);
  }

  lemma SentOne(o: Out, k: Kind, t: Tag)
    ensures Sent([o], k, t) == Weight(o.cmd, k, t)
  {
    assert [o][1..] == [];
    assert Sent([o][1..], k, t) == 0;
  }

  lemma AskBalanced(st: Stage, tag: Tag, demand: nat, cb: Callback, t: Tag)
    requires Wired(st) && Expected(st, AskDemand(tag, demand), t)
    ensures Balanced(st, AskDemand(tag, demand), HandleAsk(st, tag, demand, cb.produced, AlwaysOpen), t)
  {
    if tag in st.upstreams {
      hide HandleAsk, Balanced;
      AskForwarded(st, tag, demand, cb, t);
    } else {
      hide DrainBuffer, DispatchAndDeliver, AddDemand, PendingFor, TagsOf, Wired, Sent, TotalDemand;
      var st1 := st.(demands := AddDemand(st.demands, tag, demand));
      AddDemandPending(st.demands, tag, demand, t);
      SameTagsWired(st, st1);
      var drained := DrainBuffer(st1, AlwaysOpen);
      DispatchShips(st1, [], t);
      SameTagsWired(st1, drained.stage);
      var more := DispatchAndDeliver(drained.stage, cb.produced, AlwaysOpen);
      DispatchShips(drained.stage, cb.produced, t);
      SentAppend(drained.out, more.out, Evs, t);
      SentAppend(drained.out, more.out, Asks, t);
    }
  }

  lemma ReplenishBalanced(st: Stage, tag: Tag, n: nat, t: Tag)
    requires tag == t ==> n <= Owed(st, t)
    ensures var r := Replenish(st, tag, n, AlwaysOpen);
            && Balance(r.stage, t) - Balance(st, t) == Sent(r.out, Asks, t) - (if tag == t then n else 0)
            && Sent(r.out, Evs, t) == 0
  {
    var r := Replenish(st, tag, n, AlwaysOpen);
    if r.out != [] { assert r.out[1..] == []; }
  }

  lemma EventsBalanced(st: Stage, tag: Tag, events: seq<Value>, cb: Callback, t: Tag)
    requires Wired(st) && Expected(st, Events(tag, events), t)
    ensures Balanced(st, Events(tag, events), HandleEvents(st, tag, events, cb.emitted, AlwaysOpen), t)
  {
    var fwd := if st.kind == ProducerConsumer then DispatchAndDeliver(st, cb.emitted, AlwaysOpen) else Step(st, []);
    DispatchShips(st, cb.emitted, t);
    ReplenishBalanced(fwd.stage, tag, |events|, t);
    var asked := Replenish(fwd.stage, tag, |events|, AlwaysOpen);
    SentAppend(fwd.out, asked.out, Evs, t);
    SentAppend(fwd.out, asked.out, Asks, t);
  }

  /** Every handler keeps the books balanced, for both dispatchers, every stage
      type and whatever the callbacks return. */
  lemma HandleBalanced(st: Stage, cmd: Command, cb: Callback, t: Tag)
    requires Wired(st) && Expected(st, cmd, t)
    ensures Balanced(st, cmd, Handle(st, cmd, cb, AlwaysOpen), t)
  {
    match cmd
    case Subscribe(tag, consumer, opts) =>
      PendingAppend(st.demands, [ConsumerDemand(tag, 0)], t);
      var r := Handle(st, cmd, cb, AlwaysOpen);
      assert r.out[1..] == [];
    case Confirmed(tag, producer, opts) =>
      var r := Handle(st, cmd, cb, AlwaysOpen);
      if r.out != [] { assert r.out[1..] == []; }
    case Cancel(tag) =>
      WithoutPending(st.demands, tag, t);
      var r := Handle(st, cmd, cb, AlwaysOpen);
      if r.out != [] { assert r.out[1..] == []; }
    case AskDemand(tag, demand) => AskBalanced(st, tag, demand, cb, t);
    case Events(tag, events) => EventsBalanced(st, tag, events, cb, t);
    case Emit => DispatchShips(st, cb.emitted, t);
  }
}

/** Dispatching a batch of events to the downstream consumers of a stage.
    The functions describe one dispatch on values; `StageLoop.LoopState` runs
    the loops that compute them in place. */
module StageDispatch {
  import opened Values

  type Tag = nat

  datatype ConsumerDemand = ConsumerDemand(tag: Tag, pending: nat)

  datatype Delivery = Delivery(tag: Tag, events: seq<Value>)

  datatype DispatchResult =
    DispatchResult(deliveries: seq<Delivery>, leftover: seq<Value>, demands: seq<ConsumerDemand>)

  datatype Dispatcher = DemandDispatcher | BroadcastDispatcher

  /** Sequential dispatch: each consumer takes up to its demand, in subscription order. */
  function DemandDispatch(events: seq<Value>, subs: seq<ConsumerDemand>): (r: DispatchResult)
    decreases |subs|
  {
    if subs == [] then
      DispatchResult([], events, [])
    else
      var take := Min(|events|, subs[0].pending);
      var rest := DemandDispatch(events[take..], subs[1..]);
      DispatchResult(
        (if take == 0 then [] else [Delivery(subs[0].tag, events[..take])]) + rest.deliveries,
        rest.leftover,
        [subs[0].(pending := subs[0].pending - take)] + rest.demands)
  }

  /** The smallest pending demand; 0 when there is no subscriber. */
  function LeastDemand(subs: seq<ConsumerDemand>): nat
    decreases |subs|
  {
    if subs == [] then 0
    else if |subs| == 1 then subs[0].pending
    else Min(subs[0].pending, LeastDemand(subs[1..]))
  }

  /** One copy of `batch` for each subscriber, in subscription order. */
  function Copies(batch: seq<Value>, subs: seq<ConsumerDemand>): (r: seq<Delivery>)
  {
    seq(|subs|, i requires 0 <= i < |subs| => Delivery(subs[i].tag, batch))
  }

  function Charged(n: nat, subs: seq<ConsumerDemand>): (r: seq<ConsumerDemand>)
  {
    seq(|subs|, i requires 0 <= i < |subs| => subs[i].(pending := SaturatingSub(subs[i].pending, n)))
  }

  /** Broadcast dispatch: everyone gets the same prefix, as long as the least demand. */
  function BroadcastDispatch(events: seq<Value>, subs: seq<ConsumerDemand>): (r: DispatchResult)
  {
    if events == [] || LeastDemand(subs) == 0 then
      DispatchResult([], events, subs)
    else
      var take := Min(|events|, LeastDemand(subs));
      DispatchResult(Copies(events[..take], subs), events[take..], Charged(take, subs))
  }

  function Dispatch(d: Dispatcher, events: seq<Value>, subs: seq<ConsumerDemand>): (r: DispatchResult)
  {
    match d
    case DemandDispatcher => DemandDispatch(events, subs)
    case BroadcastDispatcher => BroadcastDispatch(events, subs)
  }

  // ---------------------------------------------------------------------------
  // Measures
  // ---------------------------------------------------------------------------

  /** Total demand recorded for `t`. */
  function PendingFor(subs: seq<ConsumerDemand>, t: Tag): nat
  {
    if subs == [] then 0
    else (if subs[0].tag == t then subs[0].pending else 0) + PendingFor(subs[1..], t)
  }

  function TotalDemand(subs: seq<ConsumerDemand>): nat
  {
    if subs == [] then 0 else subs[0].pending + TotalDemand(subs[1..])
  }

  /** The events handed to `t`, in delivery order. */
  function EventsFor(ds: seq<Delivery>, t: Tag): seq<Value>
  {
    if ds == [] then []
    else (if ds[0].tag == t then ds[0].events else []) + EventsFor(ds[1..], t)
  }

  /** All delivered events, in delivery order. */
  function AllEvents(ds: seq<Delivery>): seq<Value>
  {
    if ds == [] then [] else ds[0].events + AllEvents(ds[1..])
  }

  function TagsOf(subs: seq<ConsumerDemand>): seq<Tag>
  {
    seq(|subs|, i requires 0 <= i < |subs| => subs[i].tag)
  }

  ghost predicate DistinctTags(subs: seq<ConsumerDemand>)
  {
    forall i, j :: 0 <= i < j < |subs| ==> subs[i].tag != subs[j].tag
  }

  /** No event of a further batch could leave the stage now: nobody has demand
      (sequential) or somebody has none (broadcast). */
  ghost predicate Saturated(d: Dispatcher, subs: seq<ConsumerDemand>)
  {
    match d
    case DemandDispatcher => forall i :: 0 <= i < |subs| ==> subs[i].pending == 0
    case BroadcastDispatcher => subs == [] || exists i :: 0 <= i < |subs| && subs[i].pending == 0
  }

  // ---------------------------------------------------------------------------
  // What a dispatch does
  // ---------------------------------------------------------------------------

  lemma LeastDemandIsLeast(subs: seq<ConsumerDemand>)
    requires subs != []
    ensures forall i :: 0 <= i < |subs| ==> LeastDemand(subs) <= subs[i].pending
    ensures exists i :: 0 <= i < |subs| && LeastDemand(subs) == subs[i].pending
  {
    if |subs| == 1 {
      assert LeastDemand(subs) == subs[0].pending;
    } else {
      LeastDemandIsLeast(subs[1..]);
      var k :| 0 <= k < |subs[1..]| && LeastDemand(subs[1..]) == subs[1..][k].pending;
      assert subs[1..][k] == subs[k + 1];
      forall i | 0 <= i < |subs|
        ensures LeastDemand(subs) <= subs[i].pending
      {
        if i > 0 { assert subs[i] == subs[1..][i - 1]; }
      }
    }
  }

  /** Demand is conserved per subscription: what a consumer's pending demand
      loses is exactly what it is handed. */
  lemma DispatchConservesDemand(d: Dispatcher, events: seq<Value>, subs: seq<ConsumerDemand>, t: Tag)
    ensures var r := Dispatch(d, events, subs);
            PendingFor(r.demands, t) + |EventsFor(r.deliveries, t)| == PendingFor(subs, t)
    ensures TagsOf(Dispatch(d, events, subs).demands) == TagsOf(subs)
  {
    match d
    case DemandDispatcher => DemandConserves(events, subs, t);
    case BroadcastDispatcher =>
      if events != [] && LeastDemand(subs) != 0 {
        LeastDemandIsLeast(subs);
        var take := Min(|events|, LeastDemand(subs));
        CopiesConserve(events[..take], subs, t);
      }
  }

  lemma {:induction false} DemandConserves(events: seq<Value>, subs: seq<ConsumerDemand>, t: Tag)
    ensures var r := DemandDispatch(events, subs);
            PendingFor(r.demands, t) + |EventsFor(r.deliveries, t)| == PendingFor(subs, t)
    ensures TagsOf(DemandDispatch(events, subs).demands) == TagsOf(subs)
    decreases |subs|
  {
    DemandKeepsTags(events, subs);
    if subs != [] {
      hide TagsOf;
      var take := Min(|events|, subs[0].pending);
      var rest := DemandDispatch(events[take..], subs[1..]);
      DemandConserves(events[take..], subs[1..], t);
      var r := DemandDispatch(events, subs);
      assert r.demands[1..] == rest.demands;
      assert take > 0 ==> r.deliveries[1..] == rest.deliveries;
      assert take == 0 ==> r.deliveries == rest.deliveries;
    }
  }

  lemma {:induction false} DemandKeepsTags(events: seq<Value>, subs: seq<ConsumerDemand>)
    ensures TagsOf(DemandDispatch(events, subs).demands) == TagsOf(subs)
    decreases |subs|
  {
    if subs != [] {
      var take := Min(|events|, subs[0].pending);
      var rest := DemandDispatch(events[take..], subs[1..]);
      DemandKeepsTags(events[take..], subs[1..]);
      assert TagsOf(subs) == [subs[0].tag] + TagsOf(subs[1..]);
      assert TagsOf(DemandDispatch(events, subs).demands) == [subs[0].tag] + TagsOf(rest.demands);
    }
  }

  lemma {:induction false} CopiesConserve(batch: seq<Value>, subs: seq<ConsumerDemand>, t: Tag)
    requires forall i :: 0 <= i < |subs| ==> |batch| <= subs[i].pending
    ensures PendingFor(Charged(|batch|, subs), t) + |EventsFor(Copies(batch, subs), t)| == PendingFor(subs, t)
    ensures TagsOf(Charged(|batch|, subs)) == TagsOf(subs)
    decreases |subs|
  {
    if subs != [] {
      CopiesConserve(batch, subs[1..], t);
      assert Copies(batch, subs)[1..] == Copies(batch, subs[1..]);
      assert Charged(|batch|, subs)[1..] == Charged(|batch|, subs[1..]);
    }
  }

  /** Sequential dispatch splits the batch: the deliveries concatenated in order,
      then the leftover, are the batch itself. */
  lemma {:induction false} DemandDispatchSplits(events: seq<Value>, subs: seq<ConsumerDemand>)
    ensures var r := DemandDispatch(events, subs);
            AllEvents(r.deliveries) + r.leftover == events
    decreases |subs|
  {
    if subs != [] {
      var take := Min(|events|, subs[0].pending);
      var rest := DemandDispatch(events[take..], subs[1..]);
      DemandDispatchSplits(events[take..], subs[1..]);
      var ds := DemandDispatch(events, subs).deliveries;
      if take == 0 {
        assert ds == rest.deliveries;
      } else {
        assert ds[1..] == rest.deliveries;
        calc {
          AllEvents(ds) + rest.leftover;
          events[..take] + AllEvents(rest.deliveries) + rest.leftover;
          events[..take] + (AllEvents(rest.deliveries) + rest.leftover);
          events;
        }
      }
    }
  }

  /** Events are left over only once every consumer is out of demand. */
  lemma {:induction false} DemandDispatchExhausts(events: seq<Value>, subs: seq<ConsumerDemand>)
    ensures var r := DemandDispatch(events, subs);
            r.leftover != [] ==> Saturated(DemandDispatcher, r.demands)
    decreases |subs|
  {
    if subs != [] {
      var take := Min(|events|, subs[0].pending);
      DemandDispatchExhausts(events[take..], subs[1..]);
      DemandDispatchSplits(events[take..], subs[1..]);
    }
  }

  /** Broadcast dispatch hands one common prefix to every subscriber, keeps the
      rest, and stops only when some subscriber is out of demand. */
  lemma BroadcastDispatchSplits(events: seq<Value>, subs: seq<ConsumerDemand>)
    ensures var r := BroadcastDispatch(events, subs);
            r.deliveries == [] ==> r.leftover == events && r.demands == subs
    ensures var r := BroadcastDispatch(events, subs);
            r.deliveries != [] ==>
              |r.deliveries| == |subs| &&
              forall i :: 0 <= i < |subs| ==>
                r.deliveries[i].tag == subs[i].tag && r.deliveries[i].events + r.leftover == events
    ensures var r := BroadcastDispatch(events, subs);
            r.leftover != [] ==> Saturated(BroadcastDispatcher, r.demands)
  {
    if subs != [] { LeastDemandIsLeast(subs); }
    var r := BroadcastDispatch(events, subs);
    if events != [] && LeastDemand(subs) != 0 && r.leftover != [] {
      var k :| 0 <= k < |subs| && LeastDemand(subs) == subs[k].pending;
      assert r.demands[k].pending == 0;
    }
  }

  /** A saturated stage dispatches nothing. */
  lemma {:induction false} SaturatedHolds(d: Dispatcher, events: seq<Value>, subs: seq<ConsumerDemand>)
    requires Saturated(d, subs)
    ensures var r := Dispatch(d, events, subs);
            r.deliveries == [] && r.leftover == events && r.demands == subs
    decreases |subs|
  {
    match d
    case BroadcastDispatcher =>
      if subs != [] { LeastDemandIsLeast(subs); }
    case DemandDispatcher =>
      if subs != [] {
        forall i | 0 <= i < |subs[1..]| ensures subs[1..][i].pending == 0 {
          assert subs[1..][i] == subs[i + 1];
        }
        SaturatedHolds(d, events, subs[1..]);
        assert events[0..] == events;
      }
  }

  /** Whatever a dispatch leaves over, the stage is saturated afterwards. */
  lemma LeftoverMeansSaturated(d: Dispatcher, events: seq<Value>, subs: seq<ConsumerDemand>)
    ensures var r := Dispatch(d, events, subs); r.leftover != [] ==> Saturated(d, r.demands)
  {
    match d
    case DemandDispatcher => DemandDispatchExhausts(events, subs);
    case BroadcastDispatcher => BroadcastDispatchSplits(events, subs);
  }

  /** Deliveries only go to subscribed tags. */
  lemma {:induction false} DeliveriesAreSubscribed(d: Dispatcher, events: seq<Value>, subs: seq<ConsumerDemand>)
    ensures forall x :: x in Dispatch(d, events, subs).deliveries ==> x.tag in TagsOf(subs)
    decreases |subs|
  {
    match d
    case BroadcastDispatcher =>
      forall x | x in BroadcastDispatch(events, subs).deliveries ensures x.tag in TagsOf(subs) {
        var i :| 0 <= i < |BroadcastDispatch(events, subs).deliveries| && BroadcastDispatch(events, subs).deliveries[i] == x;
        assert TagsOf(subs)[i] == x.tag;
      }
    case DemandDispatcher =>
      if subs != [] {
        var take := Min(|events|, subs[0].pending);
        DeliveriesAreSubscribed(d, events[take..], subs[1..]);
        assert TagsOf(subs) == [subs[0].tag] + TagsOf(subs[1..]);
      }
  }
}

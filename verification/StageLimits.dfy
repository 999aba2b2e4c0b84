/** Where the stage guarantees end: the exact conditions under which a full channel
    loses credit and order, and a cancelled broadcast subscription lets a fresh event
    overtake buffered ones. */
module StageLimits {
  import opened Values
  import opened StageDispatch
  import opened StageLoop
  import opened StageNetwork
  import opened StageCredit
  import opened StageOrder
  import opened StageRuns
  import opened StageFlow

  lemma {:induction false} EventsForSnoc(ds: seq<Delivery>, d: Delivery, t: Tag)
    ensures EventsFor(ds + [d], t) == EventsFor(ds, t) + if d.tag == t then d.events else []
    decreases |ds|
  {
    if ds == [] {
      assert ds + [d] == [d];
      assert [d][1..] == [];
    } else {
      assert (ds + [d])[1..] == ds[1..] + [d];
      EventsForSnoc(ds[1..], d, t);
    }
  }

  /** Only an open channel carries events; only closed ones are reported dead. */
  lemma {:induction false} DeliverCounts(downstreams: map<Tag, StageId>, ds: seq<Delivery>, peer: Tag -> Channel, t: Tag)
    requires forall i :: 0 <= i < |ds| ==> ds[i].tag in downstreams
    ensures Sent(Deliver(downstreams, ds, peer).out, Evs, t) == if peer(t) == Open then |EventsFor(ds, t)| else 0
    ensures peer(t) != Closed ==> t !in Deliver(downstreams, ds, peer).dead
    decreases |ds|
  {
    if ds != [] {
      var init, d := ds[..|ds| - 1], ds[|ds| - 1];
      DeliverCounts(downstreams, init, peer, t);
      EventsForSnoc(init, d, t);
      assert init + [d] == ds;
      var last := [Out(downstreams[d.tag], Events(d.tag, d.events))];
      SentAppend(Deliver(downstreams, init, peer).out, last, Evs, t);
      assert last[1..] == [];
    }
  }

  lemma {:induction false} CleanupPending(st: Stage, dead: seq<Tag>, t: Tag)
    requires t !in dead
    ensures PendingFor(CleanupDead(st, dead).demands, t) == PendingFor(st.demands, t)
    decreases |dead|
  {
    if dead != [] {
      var init := dead[..|dead| - 1];
      CleanupPending(st, init, t);
      assert dead[|dead| - 1] in dead;
      WithoutPending(CleanupDead(st, init).demands, dead[|dead| - 1], t);
    }
  }

  /** Demand that the sequential dispatcher serves before it comes to `t`. */
  function DemandBefore(subs: seq<ConsumerDemand>, t: Tag): nat
  {
    if subs == [] || subs[0].tag == t then 0 else subs[0].pending + DemandBefore(subs[1..], t)
  }

  /** A batch of `n` events leaves nothing for `t`: it has no demand, or earlier demand
      absorbs the batch (sequential), or somebody has none (broadcast). */
  ghost predicate Unserved(d: Dispatcher, n: nat, subs: seq<ConsumerDemand>, t: Tag)
  {
    || PendingFor(subs, t) == 0
    || match d
       case DemandDispatcher => n <= DemandBefore(subs, t)
       case BroadcastDispatcher => exists i :: 0 <= i < |subs| && subs[i].pending == 0
  }

  lemma {:induction false} DemandUnservedIff(events: seq<Value>, subs: seq<ConsumerDemand>, t: Tag)
    requires DistinctTags(subs)
    ensures EventsFor(DemandDispatch(events, subs).deliveries, t) == [] <==> Unserved(DemandDispatcher, |events|, subs, t)
    decreases |subs|
  {
    if subs != [] {
      var take := Min(|events|, subs[0].pending);
      var rest := DemandDispatch(events[take..], subs[1..]);
      TailTags(subs);
      DemandUnservedIff(events[take..], subs[1..], t);
      var ds := DemandDispatch(events, subs).deliveries;
      if take > 0 { assert ds[1..] == rest.deliveries; } else { assert ds == rest.deliveries; }
      if subs[0].tag == t { PendingAbsent(subs[1..], t); }
    }
  }

  lemma {:induction false} PendingPresent(subs: seq<ConsumerDemand>, t: Tag)
    requires forall i :: 0 <= i < |subs| ==> subs[i].pending > 0
    ensures PendingFor(subs, t) > 0 <==> t in TagsOf(subs)
    decreases |subs|
  {
    if subs != [] {
      assert TagsOf(subs) == [subs[0].tag] + TagsOf(subs[1..]);
      PendingPresent(subs[1..], t);
    }
  }

  /** What a consumer gets from a batch can be read off the recorded demand. */
  lemma UnservedIff(d: Dispatcher, events: seq<Value>, subs: seq<ConsumerDemand>, t: Tag)
    requires DistinctTags(subs) && events != []
    ensures EventsFor(Dispatch(d, events, subs).deliveries, t) == [] <==> Unserved(d, |events|, subs, t)
  {
    match d
    case DemandDispatcher => DemandUnservedIff(events, subs, t);
    case BroadcastDispatcher =>
      if subs != [] {
        LeastDemandIsLeast(subs);
        if LeastDemand(subs) > 0 {
          CopiesFor(events[..Min(|events|, LeastDemand(subs))], subs, t);
          PendingPresent(subs, t);
        }
      }
  }

  /** A dispatch charges exactly what it sends if and only if the consumer's
      channel is open or the batch leaves it nothing: a full channel puts the events back
      in the buffer after their demand was spent. */
  lemma FullChannelLosesCredit(st: Stage, events: seq<Value>, peer: Tag -> Channel, t: Tag)
    requires Wired(st) && peer(t) != Closed && events != []
    ensures var r := DispatchAndDeliver(st, events, peer);
            PendingFor(st.demands, t) == PendingFor(r.stage.demands, t) + Sent(r.out, Evs, t) <==>
              peer(t) == Open || Unserved(st.dispatcher, |events|, st.demands, t)
  {
    assert DistinctTags(st.demands);
    hide Dispatch, Deliver, CleanupDead, BufferLeftover, PendingFor, Wired, Sent, EventsFor, DistinctTags, Unserved;
    var d := Dispatch(st.dispatcher, events, st.demands);
    UnservedIff(st.dispatcher, events, st.demands, t);
    DispatchDeliverable(st, events);
    DispatchConservesDemand(st.dispatcher, events, st.demands, t);
    DeliverCounts(st.downstreams, d.deliveries, peer, t);
    var sent := Deliver(st.downstreams, d.deliveries, peer);
    var buffer := BufferLeftover(BufferLeftover(st.buffer, d.leftover), sent.undelivered);
    CleanupPending(st.(demands := d.demands, buffer := buffer), sent.dead, t);
  }

  // ---------------------------------------------------------------------------
  // Order on a full channel
  // ---------------------------------------------------------------------------

  ghost predicate NoRepeats(events: seq<Value>)
  {
    forall i, j :: 0 <= i < j < |events| ==> events[i] != events[j]
  }

  /** `s` takes some of `events`, at the increasing positions `at`. */
  ghost predicate TakenAt(s: seq<Value>, events: seq<Value>, at: seq<nat>)
  {
    && |at| == |s|
    && (forall k :: 0 <= k < |at| ==> at[k] < |events| && events[at[k]] == s[k])
    && (forall j, k :: 0 <= j < k < |at| ==> at[j] < at[k])
  }

  /** `s` holds some of `events`, each at most once and in their order. */
  ghost predicate InOrder(s: seq<Value>, events: seq<Value>)
  {
    exists at :: TakenAt(s, events, at)
  }

  /** The events of deliveries whose channel takes nothing. */
  function Held(ds: seq<Delivery>, peer: Tag -> Channel): seq<Value>
  {
    if ds == [] then [] else
      var d := ds[|ds| - 1];
      Held(ds[..|ds| - 1], peer) + if peer(d.tag) == Open then [] else d.events
  }

  lemma {:induction false} DeliverHolds(downstreams: map<Tag, StageId>, ds: seq<Delivery>, peer: Tag -> Channel)
    requires forall i :: 0 <= i < |ds| ==> ds[i].tag in downstreams
    ensures Deliver(downstreams, ds, peer).undelivered == Held(ds, peer)
    decreases |ds|
  {
    if ds != [] {
      DeliverHolds(downstreams, ds[..|ds| - 1], peer);
    }
  }

  lemma {:induction false} AllEventsSnoc(ds: seq<Delivery>, d: Delivery)
    ensures AllEvents(ds + [d]) == AllEvents(ds) + d.events
    decreases |ds|
  {
    if ds == [] {
      assert [d][1..] == [] && ds + [d] == [d];
    } else {
      assert (ds + [d])[1..] == ds[1..] + [d];
      AllEventsSnoc(ds[1..], d);
      assert ds[0].events + (AllEvents(ds[1..]) + d.events) == (ds[0].events + AllEvents(ds[1..])) + d.events;
    }
  }

  /** What is held back of a sequential dispatch comes from its front part, in order. */
  lemma {:induction false} HeldInOrder(ds: seq<Delivery>, peer: Tag -> Channel) returns (at: seq<nat>)
    ensures TakenAt(Held(ds, peer), AllEvents(ds), at)
    decreases |ds|
  {
    if ds == [] { return []; }
    var init, d := ds[..|ds| - 1], ds[|ds| - 1];
    at := HeldInOrder(init, peer);
    assert init + [d] == ds;
    AllEventsSnoc(init, d);
    var front := AllEvents(init);
    if peer(d.tag) != Open {
      at := at + seq(|d.events|, i requires 0 <= i < |d.events| => |front| + i);
    }
  }

  lemma {:induction false} HeldNothingIff(ds: seq<Delivery>, peer: Tag -> Channel)
    ensures Held(ds, peer) == [] <==> forall x :: x in ds && peer(x.tag) != Open ==> x.events == []
    decreases |ds|
  {
    if ds != [] {
      HeldNothingIff(ds[..|ds| - 1], peer);
      assert ds == ds[..|ds| - 1] + [ds[|ds| - 1]];
    }
  }

  lemma {:induction false} EventsForNothingIff(ds: seq<Delivery>, t: Tag)
    ensures EventsFor(ds, t) == [] <==> forall x :: x in ds && x.tag == t ==> x.events == []
    decreases |ds|
  {
    if ds != [] {
      EventsForNothingIff(ds[1..], t);
      assert ds == [ds[0]] + ds[1..];
    }
  }

  /** Some consumer whose channel takes nothing is due some of a batch of `n` events. */
  ghost predicate Blocked(d: Dispatcher, n: nat, subs: seq<ConsumerDemand>, peer: Tag -> Channel)
  {
    exists i :: 0 <= i < |subs| && peer(subs[i].tag) != Open && !Unserved(d, n, subs, subs[i].tag)
  }

  lemma HeldIffBlocked(d: Dispatcher, events: seq<Value>, subs: seq<ConsumerDemand>, peer: Tag -> Channel)
    requires DistinctTags(subs) && events != []
    ensures Held(Dispatch(d, events, subs).deliveries, peer) != [] <==> Blocked(d, |events|, subs, peer)
  {
    hide Unserved, Dispatch;
    var ds := Dispatch(d, events, subs).deliveries;
    HeldNothingIff(ds, peer);
    DeliveriesAreSubscribed(d, events, subs);
    forall i | 0 <= i < |subs|
      ensures Unserved(d, |events|, subs, subs[i].tag) <==> forall x :: x in ds && x.tag == subs[i].tag ==> x.events == []
    {
      UnservedIff(d, events, subs, subs[i].tag);
      EventsForNothingIff(ds, subs[i].tag);
    }
    if x :| x in ds && peer(x.tag) != Open && x.events != [] {
      assert x.tag in TagsOf(subs);
      var i :| 0 <= i < |subs| && TagsOf(subs)[i] == x.tag;
      assert subs[i].tag == x.tag && !Unserved(d, |events|, subs, subs[i].tag);
    }
  }

  lemma {:induction false} DemandLeavesOver(events: seq<Value>, subs: seq<ConsumerDemand>)
    ensures |DemandDispatch(events, subs).leftover| == SaturatingSub(|events|, TotalDemand(subs))
    decreases |subs|
  {
    if subs != [] {
      DemandLeavesOver(events[Min(|events|, subs[0].pending)..], subs[1..]);
    }
  }

  /** Behind the leftover, held back events are out of order. */
  lemma BehindIsOutOfOrder(front: seq<Value>, leftover: seq<Value>, held: seq<Value>, at: seq<nat>)
    requires NoRepeats(front + leftover) && TakenAt(held, front, at)
    ensures InOrder(leftover + held, front + leftover) <==> leftover == [] || held == []
  {
    var events := front + leftover;
    if leftover == [] {
      assert leftover + held == held && events == front;
      assert TakenAt(held, events, at);
    } else if held == [] {
      assert leftover + held == leftover;
      assert TakenAt(leftover, events, seq(|leftover|, i requires 0 <= i < |leftover| => |front| + i));
    } else {
      assert events[|front|] == leftover[0] && events[at[0]] == held[0];
      WrongWayRound(leftover + held, events, 0, |leftover|, |front|, at[0]);
    }
  }

  lemma PositionIs(s: seq<Value>, events: seq<Value>, at: seq<nat>, k: nat, i: nat)
    requires NoRepeats(events) && TakenAt(s, events, at) && k < |s| && i < |events| && events[i] == s[k]
    ensures at[k] == i
  {
    assert events[at[k]] == events[i];
  }

  /** A list that has a later event before an earlier one, or one twice, is not in order. */
  lemma WrongWayRound(s: seq<Value>, events: seq<Value>, a: nat, b: nat, i: nat, j: nat)
    requires NoRepeats(events) && a < b < |s| && j <= i < |events| && events[i] == s[a] && events[j] == s[b]
    ensures !InOrder(s, events)
  {
    hide NoRepeats;
    if at :| TakenAt(s, events, at) {
      PositionIs(s, events, at, a, i);
      PositionIs(s, events, at, b, j);
    }
  }

  /** How many consumers' channels take nothing. */
  function Shut(subs: seq<ConsumerDemand>, peer: Tag -> Channel): nat
  {
    if subs == [] then 0 else Shut(subs[..|subs| - 1], peer) + if peer(subs[|subs| - 1].tag) == Open then 0 else 1
  }

  function Times(batch: seq<Value>, k: nat): seq<Value>
  {
    if k == 0 then [] else Times(batch, k - 1) + batch
  }

  lemma {:induction false} CopiesHeld(batch: seq<Value>, subs: seq<ConsumerDemand>, peer: Tag -> Channel)
    ensures Held(Copies(batch, subs), peer) == Times(batch, Shut(subs, peer))
    decreases |subs|
  {
    if subs != [] {
      var n := |subs| - 1;
      CopiesHeld(batch, subs[..n], peer);
      assert Copies(batch, subs)[..n] == Copies(batch, subs[..n]);
      var more := Times(batch, Shut(subs[..n], peer));
      assert more + [] == more;
    }
  }

  /** Copies behind the leftover are out of order, and so is a second copy. */
  lemma CopiesOutOfOrder(batch: seq<Value>, leftover: seq<Value>, k: nat)
    requires NoRepeats(batch + leftover) && batch != []
    ensures InOrder(leftover + Times(batch, k), batch + leftover) <==> k == 0 || (k == 1 && leftover == [])
  {
    hide InOrder, NoRepeats;
    if k == 0 {
      assert leftover + Times(batch, 0) == leftover;
      LeftoverInOrder(batch, leftover);
    } else if k == 1 {
      assert Times(batch, 1) == Times(batch, 0) + batch == batch;
      CopyBehind(batch, leftover);
    } else {
      SecondCopyOutOfOrder(batch, leftover, k);
    }
  }

  lemma LeftoverInOrder(batch: seq<Value>, leftover: seq<Value>)
    ensures InOrder(leftover, batch + leftover)
  {
    assert TakenAt(leftover, batch + leftover, seq(|leftover|, i requires 0 <= i < |leftover| => |batch| + i));
  }

  lemma CopyBehind(batch: seq<Value>, leftover: seq<Value>)
    requires NoRepeats(batch + leftover) && batch != []
    ensures InOrder(leftover + batch, batch + leftover) <==> leftover == []
  {
    hide InOrder, NoRepeats;
    BehindIsOutOfOrder(batch, leftover, batch, seq(|batch|, i requires 0 <= i < |batch| => i));
  }

  lemma SecondCopyOutOfOrder(batch: seq<Value>, leftover: seq<Value>, k: nat)
    requires NoRepeats(batch + leftover) && batch != [] && k >= 2
    ensures !InOrder(leftover + Times(batch, k), batch + leftover)
  {
    hide InOrder, NoRepeats;
    var events, all := batch + leftover, leftover + Times(batch, k);
    var more := leftover + Times(batch, k - 2);
    assert Times(batch, k) == Times(batch, k - 1) + batch && Times(batch, k - 1) == Times(batch, k - 2) + batch;
    assert all == more + batch + batch;
    var first, second := |more|, |more| + |batch|;
    assert all[first] == batch[0] && all[second] == batch[0] && events[0] == batch[0];
    WrongWayRound(all, events, first, second, 0, 0);
  }

  /** The buffer keeps a batch's events in emission order, by demand and channels alone.
      Sequential: all of it fits the demand, or nothing is held back. Broadcast: nothing
      goes out, or no channel is shut, or just one is and all of the batch fits. */
  ghost predicate OrderKept(d: Dispatcher, n: nat, subs: seq<ConsumerDemand>, peer: Tag -> Channel)
  {
    match d
    case DemandDispatcher => n <= TotalDemand(subs) || !Blocked(d, n, subs, peer)
    case BroadcastDispatcher =>
      || Saturated(d, subs) || Shut(subs, peer) == 0
      || (Shut(subs, peer) == 1 && forall i :: 0 <= i < |subs| ==> n <= subs[i].pending)
  }

  /** Held back events are put behind the leftover of their own batch, so what a dispatch
      leaves in the buffer is in emission order if and only if `OrderKept` says so. */
  lemma FullChannelKeepsOrderIff(st: Stage, events: seq<Value>, peer: Tag -> Channel)
    requires Wired(st) && events != [] && NoRepeats(events)
    ensures var tail := LeftBehind(st, events, peer);
            && (|st.buffer| + |tail| <= MAX_EVENT_BUFFER ==> DispatchAndDeliver(st, events, peer).stage.buffer == st.buffer + tail)
            && (InOrder(tail, events) <==> OrderKept(st.dispatcher, |events|, st.demands, peer))
  {
    assert DistinctTags(st.demands);
    hide Wired, DistinctTags, InOrder, Blocked;
    var d := Dispatch(st.dispatcher, events, st.demands);
    DispatchDeliverable(st, events);
    DeliverHolds(st.downstreams, d.deliveries, peer);
    BufferAfter(st, events, peer);
    match st.dispatcher
    case DemandDispatcher =>
      DemandDispatchSplits(events, st.demands);
      DemandLeavesOver(events, st.demands);
      HeldIffBlocked(st.dispatcher, events, st.demands, peer);
      var at := HeldInOrder(d.deliveries, peer);
      BehindIsOutOfOrder(AllEvents(d.deliveries), d.leftover, Held(d.deliveries, peer), at);
    case BroadcastDispatcher => BroadcastKeepsOrderIff(events, st.demands, peer);
  }

  lemma BroadcastKeepsOrderIff(events: seq<Value>, subs: seq<ConsumerDemand>, peer: Tag -> Channel)
    requires events != [] && NoRepeats(events)
    ensures var d := BroadcastDispatch(events, subs);
            InOrder(d.leftover + Held(d.deliveries, peer), events) <==>
              OrderKept(BroadcastDispatcher, |events|, subs, peer)
  {
    hide InOrder;
    var d := BroadcastDispatch(events, subs);
    if subs != [] { LeastDemandIsLeast(subs); }
    if LeastDemand(subs) == 0 {
      assert d.leftover + Held([], peer) == events;
      WholeInOrder(events);
    } else {
      var take := Min(|events|, LeastDemand(subs));
      var batch := events[..take];
      CopiesHeld(batch, subs, peer);
      assert batch + events[take..] == events;
      CopiesOutOfOrder(batch, events[take..], Shut(subs, peer));
    }
  }

  lemma WholeInOrder(events: seq<Value>)
    ensures InOrder(events, events)
  {
    assert TakenAt(events, events, seq(|events|, i requires 0 <= i < |events| => i));
  }

  /** What a dispatch of `events` adds to the buffer, overflow aside. */
  function LeftBehind(st: Stage, events: seq<Value>, peer: Tag -> Channel): seq<Value>
  {
    var d := Dispatch(st.dispatcher, events, st.demands);
    d.leftover + Deliver(st.downstreams, d.deliveries, peer).undelivered
  }

  lemma {:induction false} CleanupKeepsBuffer(st: Stage, dead: seq<Tag>)
    ensures CleanupDead(st, dead).buffer == st.buffer
    decreases |dead|
  {
    if dead != [] { CleanupKeepsBuffer(st, dead[..|dead| - 1]); }
  }

  lemma BufferAfter(st: Stage, events: seq<Value>, peer: Tag -> Channel)
    requires events != []
    ensures var tail := LeftBehind(st, events, peer);
            |st.buffer| + |tail| <= MAX_EVENT_BUFFER ==> DispatchAndDeliver(st, events, peer).stage.buffer == st.buffer + tail
  {
    hide Dispatch, Deliver, CleanupDead;
    var d := Dispatch(st.dispatcher, events, st.demands);
    var sent := Deliver(st.downstreams, d.deliveries, peer);
    var buffer := BufferLeftover(BufferLeftover(st.buffer, d.leftover), sent.undelivered);
    CleanupKeepsBuffer(st.(demands := d.demands, buffer := buffer), sent.dead);
    assert st.buffer + d.leftover + sent.undelivered == st.buffer + (d.leftover + sent.undelivered);
  }

  /** After a cancel on a broadcast stage that holds events back, the next
      emission waits behind them if and only if the cancel was safe; otherwise it
      is sent at once while the older events stay in the buffer. */
  lemma UnsafeCancelOvertakes(st: Stage, tag: Tag, e: Value)
    requires Wired(st) && Settled(st) && st.buffer != [] && st.kind != Consumer
    requires st.dispatcher == BroadcastDispatcher && tag in st.downstreams
    ensures var r := HandleEmit(HandleCancel(st, tag, AlwaysOpen).stage, [e], AlwaysOpen);
            && (r.out == [] <==> CancelSafe(st, tag))
            && (r.out != [] ==> r.stage.buffer == st.buffer)
  {
    hide Wired, Dispatch, Without, Saturated, Deliver, BufferLeftover;
    var st1 := DropDownstream(st, tag);
    DropWired(st, tag);
    ShipBatch(st1, [e], 0);
    if CancelSafe(st, tag) {
      SaturatedHolds(BroadcastDispatcher, [e], st1.demands);
      assert Deliver(st1.downstreams, [], AlwaysOpen).out == [] by { DeliverOpen(st1.downstreams, []); }
    } else {
      UnsaturatedSends(st1, e);
      NothingMore(st.buffer);
    }
  }

  lemma NothingMore(b: seq<Value>)
    ensures BufferLeftover(BufferLeftover(b, []), []) == b
  {
    assert b + [] == b;
  }

  /** A broadcast stage whose subscribers all have demand sends a single event to all. */
  lemma UnsaturatedSends(st: Stage, e: Value)
    requires Wired(st) && st.dispatcher == BroadcastDispatcher && !Saturated(BroadcastDispatcher, st.demands)
    ensures var d := Dispatch(st.dispatcher, [e], st.demands);
            d.leftover == [] && Deliver(st.downstreams, d.deliveries, AlwaysOpen).out != []
  {
    LeastDemandIsLeast(st.demands);
    var d := Dispatch(st.dispatcher, [e], st.demands);
    assert |d.deliveries| == |st.demands|;
    DispatchDeliverable(st, [e]);
    DeliverOpen(st.downstreams, d.deliveries);
    assert |Posted(st.downstreams, d.deliveries)| == |st.demands|;
  }
}

/** When a subscription stops for good: the exact step after which an automatic
    consumer has nothing outstanding, that it never recovers, and two runs that get
    there. A pure consumer never does. */
module StageStall {
  import opened Values
  import opened StageDispatch
  import opened StageLoop
  import opened StageNetwork
  import opened StageCredit
  import opened StageRuns
  import opened StageOrder
  import opened StageFlow

  // ---------------------------------------------------------------------------
  // One handler
  // ---------------------------------------------------------------------------

  /** A re-ask leaves nothing outstanding if and only if the batch uses up the window
      and either the threshold is not reached or there is no room downstream. */
  lemma ReaskStallsIff(up: Upstream, n: nat, room: nat)
    requires up.minDemand <= up.maxDemand && up.maxDemand >= 1 && n <= up.outstanding <= up.maxDemand
    ensures Reask(up, n, room).0.outstanding == 0 <==>
              n == up.outstanding && (up.pendingEvents + n < up.minDemand || room == 0)
  {
  }

  lemma {:induction false} DemandLeft(events: seq<Value>, subs: seq<ConsumerDemand>)
    ensures TotalDemand(DemandDispatch(events, subs).demands) == SaturatingSub(TotalDemand(subs), |events|)
    decreases |subs|
  {
    if subs != [] {
      var take := Min(|events|, subs[0].pending);
      DemandLeft(events[take..], subs[1..]);
      assert DemandDispatch(events, subs).demands[1..] == DemandDispatch(events[take..], subs[1..]).demands;
    }
  }

  lemma {:induction false} NoDemandIff(subs: seq<ConsumerDemand>)
    ensures TotalDemand(subs) == 0 <==> forall i :: 0 <= i < |subs| ==> subs[i].pending == 0
    decreases |subs|
  {
    if subs != [] {
      NoDemandIff(subs[1..]);
      assert forall i :: 0 < i < |subs| ==> subs[i] == subs[1..][i - 1];
    }
  }

  /** Forwarding `n` events uses up all that the stage's own consumers want. */
  ghost predicate ServesOut(d: Dispatcher, n: nat, subs: seq<ConsumerDemand>)
  {
    match d
    case DemandDispatcher => TotalDemand(subs) <= n
    case BroadcastDispatcher =>
      forall i, j :: 0 <= i < |subs| && 0 <= j < |subs| ==> subs[i].pending <= n && subs[i].pending <= subs[j].pending
  }

  lemma ServesOutIff(d: Dispatcher, events: seq<Value>, subs: seq<ConsumerDemand>)
    ensures TotalDemand(Dispatch(d, events, subs).demands) == 0 <==> ServesOut(d, |events|, subs)
  {
    match d
    case DemandDispatcher => DemandLeft(events, subs);
    case BroadcastDispatcher =>
      var after := Dispatch(d, events, subs).demands;
      NoDemandIff(after);
      if subs != [] { LeastDemandIsLeast(subs); }
      if ServesOut(d, |events|, subs) && subs != [] {
        var k :| 0 <= k < |subs| && LeastDemand(subs) == subs[k].pending;
        assert forall i :: 0 <= i < |subs| ==> subs[i].pending <= subs[k].pending;
      }
      if forall i :: 0 <= i < |after| ==> after[i].pending == 0 {
        forall i, j | 0 <= i < |subs| && 0 <= j < |subs|
          ensures subs[i].pending <= |events| && subs[i].pending <= subs[j].pending
        { assert after[i].pending == 0; }
      }
  }

  lemma RoomAfterIff(st: Stage, emitted: seq<Value>)
    requires Wired(st)
    ensures TotalDemand(DispatchAndDeliver(st, emitted, AlwaysOpen).stage.demands) == 0 <==>
              ServesOut(st.dispatcher, |emitted|, st.demands)
  {
    hide ServesOut, TotalDemand, Wired;
    ServesOutIff(st.dispatcher, emitted, st.demands);
    if emitted == [] { NothingDispatched(st.dispatcher, st.demands); } else { ShipStage(st, emitted); }
  }

  lemma NothingDispatched(d: Dispatcher, subs: seq<ConsumerDemand>)
    ensures Dispatch(d, [], subs).demands == subs
  {
    NothingToDispatch(subs);
  }

  /** Handling `events` on `t` uses up the window without asking for more. */
  ghost predicate Stalling(st: Stage, t: Tag, events: seq<Value>, emitted: seq<Value>)
  {
    t in st.upstreams && st.upstreams[t].mode == Automatic &&
    var up := st.upstreams[t];
    && up.outstanding > 0 && |events| == up.outstanding
    && (|| up.pendingEvents + |events| < up.minDemand
        || (st.kind == ProducerConsumer && ServesOut(st.dispatcher, |emitted|, st.demands)))
  }

  /** Exactly when handling a batch leaves nothing outstanding, read off the stage and
      what its callback returns. */
  lemma HandleStallsIff(st: Stage, events: seq<Value>, cb: Callback, t: Tag)
    requires Wired(st) && t in st.upstreams && st.upstreams[t].mode == Automatic && WindowOk(st, t)
    requires 0 < |events| <= st.upstreams[t].outstanding
    ensures var r := Handle(st, Events(t, events), cb, AlwaysOpen);
            && t in r.stage.upstreams && r.stage.upstreams[t].mode == Automatic
            && (r.stage.upstreams[t].outstanding == 0 <==> Stalling(st, t, events, cb.emitted))
  {
    hide DispatchAndDeliver, Wired, ServesOut, TotalDemand, Reask;
    DispatchShips(st, cb.emitted, t);
    RoomAfterIff(st, cb.emitted);
    var fwd := if st.kind == ProducerConsumer then DispatchAndDeliver(st, cb.emitted, AlwaysOpen) else Step(st, []);
    ReaskStallsIff(st.upstreams[t], |events|, Room(fwd.stage));
    ReaskKeepsMode(st.upstreams[t], |events|, Room(fwd.stage));
  }

  lemma ReaskKeepsMode(up: Upstream, n: nat, room: nat)
    ensures Reask(up, n, room).0.mode == up.mode
  {
  }

  /** Commands that are not about `t` leave its window alone. */
  lemma OthersKeepWindow(st: Stage, cmd: Command, cb: Callback, t: Tag)
    requires Wired(st) && !((cmd.Confirmed? || cmd.Cancel? || cmd.Events?) && cmd.tag == t)
    ensures var st' := Handle(st, cmd, cb, AlwaysOpen).stage;
            (t in st'.upstreams <==> t in st.upstreams) && (t in st.upstreams ==> st'.upstreams[t] == st.upstreams[t])
  {
    hide DispatchAndDeliver, DrainBuffer, Wired, TagsOf, PendingFor, Reask;
    match cmd
    case Subscribe(_, _, _) =>
    case Confirmed(_, _, _) =>
    case Cancel(_) =>
    case AskDemand(tag, demand) =>
      if tag !in st.upstreams {
        var st1 := st.(demands := AddDemand(st.demands, tag, demand));
        AddDemandPending(st.demands, tag, demand, t);
        SameTagsWired(st, st1);
        DispatchShips(st1, [], t);
        var drained := DrainBuffer(st1, AlwaysOpen);
        SameTagsWired(st1, drained.stage);
        DispatchShips(drained.stage, cb.produced, t);
      }
    case Events(tag, events) => DispatchShips(st, cb.emitted, t);
    case Emit => DispatchShips(st, cb.emitted, t);
  }

  // ---------------------------------------------------------------------------
  // No batch is empty
  // ---------------------------------------------------------------------------

  lemma {:induction false} DeliveriesNonEmpty(d: Dispatcher, events: seq<Value>, subs: seq<ConsumerDemand>)
    ensures forall x :: x in Dispatch(d, events, subs).deliveries ==> x.events != []
    decreases |subs|
  {
    match d
    case DemandDispatcher =>
      if subs != [] {
        var take := Min(|events|, subs[0].pending);
        DeliveriesNonEmpty(d, events[take..], subs[1..]);
      }
    case BroadcastDispatcher =>
  }

  ghost predicate NoneEmpty(out: seq<Out>)
  {
    forall o :: o in out && o.cmd.Events? ==> o.cmd.events != []
  }

  lemma ShipsNoneEmpty(st: Stage, events: seq<Value>)
    requires Wired(st)
    ensures NoneEmpty(DispatchAndDeliver(st, events, AlwaysOpen).out)
    ensures NoneEmpty(DrainBuffer(st, AlwaysOpen).out)
  {
    PostsNoneEmpty(st, events);
    PostsNoneEmpty(st, st.buffer);
  }

  lemma PostsNoneEmpty(st: Stage, events: seq<Value>)
    requires Wired(st)
    ensures NoneEmpty(Deliver(st.downstreams, Dispatch(st.dispatcher, events, st.demands).deliveries, AlwaysOpen).out)
  {
    hide Dispatch, Wired;
    var ds := Dispatch(st.dispatcher, events, st.demands).deliveries;
    DispatchDeliverable(st, events);
    DeliverOpen(st.downstreams, ds);
    DeliveriesNonEmpty(st.dispatcher, events, st.demands);
    var out := Posted(st.downstreams, ds);
    forall o | o in out && o.cmd.Events? ensures o.cmd.events != [] {
      var i :| 0 <= i < |out| && out[i] == o;
      assert ds[i] in ds;
    }
  }

  lemma HandleNoneEmpty(st: Stage, cmd: Command, cb: Callback)
    requires Wired(st)
    ensures NoneEmpty(Handle(st, cmd, cb, AlwaysOpen).out)
  {
    hide DispatchAndDeliver, DrainBuffer, Wired, TagsOf, PendingFor, Reask;
    match cmd
    case Subscribe(_, _, _) =>
    case Confirmed(_, _, _) =>
    case Cancel(_) =>
    case AskDemand(tag, demand) =>
      if tag !in st.upstreams {
        var st1 := st.(demands := AddDemand(st.demands, tag, demand));
        AddDemandPending(st.demands, tag, demand, 0);
        SameTagsWired(st, st1);
        DispatchShips(st1, [], 0);
        ShipsNoneEmpty(st1, []);
        var drained := DrainBuffer(st1, AlwaysOpen);
        SameTagsWired(st1, drained.stage);
        ShipsNoneEmpty(drained.stage, cb.produced);
      }
    case Events(tag, events) => ShipsNoneEmpty(st, cb.emitted);
    case Emit => ShipsNoneEmpty(st, cb.emitted);
  }

  ghost predicate NoEmptyMail(n: Network)
  {
    forall s, cmd :: cmd in Box(n.inbox, s) && cmd.Events? ==> cmd.events != []
  }

  lemma PostKeepsMail(n: Network, n': Network, o: Out)
    requires NoEmptyMail(n) && n'.inbox == Post(n.inbox, o) && !o.cmd.Events?
    ensures NoEmptyMail(n')
  {
    forall s, cmd | cmd in Box(n'.inbox, s) && cmd.Events? ensures cmd.events != [] { PostBox(n.inbox, o, s, Asks, 0); }
  }

  lemma ApplyKeepsMail(n: Network, a: Action)
    requires Inv(n) && NoEmptyMail(n) && Enabled(n, a)
    ensures NoEmptyMail(Apply(n, a))
  {
    hide Inv, Handle, Wired;
    var n' := Apply(n, a);
    match a
    case Process(s, cb) =>
      HeadFacts(n, s, 0);
      HandleNoneEmpty(n.stages[s], Box(n.inbox, s)[0], cb);
      forall x, cmd | cmd in Box(n'.inbox, x) && cmd.Events? ensures cmd.events != [] {
        BoxAfter(n, s, cb, x);
        if cmd in Mail(React(n, s, cb).out, x) {
          MailMember(React(n, s, cb).out, x, cmd);
        } else {
          assert cmd in Box(n.inbox, x);
        }
      }
    case ClientSubscribe(tag, link, opts) => PostKeepsMail(n, n', Out(link.producer, Subscribe(tag, link.consumer, opts)));
    case Spawn(id, kind, dispatcher) =>
    case ClientCancel(at, tag) => PostKeepsMail(n, n', Out(at, Cancel(tag)));
    case ClientAsk(at, tag, demand) => PostKeepsMail(n, n', Out(at, AskDemand(tag, demand)));
    case ClientEmit(at) => PostKeepsMail(n, n', Out(at, Emit));
  }

  lemma {:induction false} MailNeverEmpty(run: seq<Action>)
    ensures NoEmptyMail(Exec(run))
    decreases |run|
  {
    if run != [] {
      hide Inv, NoEmptyMail, Apply;
      var init := run[..|run| - 1];
      MailNeverEmpty(init);
      InvAlways(init);
      if Enabled(Exec(init), run[|run| - 1]) { ApplyKeepsMail(Exec(init), run[|run| - 1]); }
    } else {
      assert Box(Exec(run).inbox, 0) == [];
    }
  }

  // ---------------------------------------------------------------------------
  // Runs
  // ---------------------------------------------------------------------------

  /** An undisturbed automatic subscription whose consumer waits for nothing. */
  ghost predicate Stalled(n: Network, t: Tag)
  {
    && Undisturbed(n, t)
    && var st := At(n, Ends(n, t).consumer);
       t in st.upstreams && st.upstreams[t].mode == Automatic && st.upstreams[t].outstanding == 0
  }

  /** The consumer of `t` is about to use up its window without asking for more. */
  ghost predicate StallingStep(n: Network, a: Action, t: Tag)
  {
    && t in n.links && Enabled(n, a) && a.Process? && a.at == n.links[t].consumer
    && var cmd := Box(n.inbox, a.at)[0];
       cmd.Events? && cmd.tag == t && Stalling(n.stages[a.at], t, cmd.events, a.cb.emitted)
  }

  /** With nothing outstanding there is nothing for `t` in its consumer's channel. */
  lemma StalledGetsNothing(n: Network, s: StageId, t: Tag)
    requires Inv(n) && NoEmptyMail(n) && Stalled(n, t) && s in n.stages && Box(n.inbox, s) != []
    ensures var cmd := Box(n.inbox, s)[0]; !(cmd.Events? && cmd.tag == t)
  {
    hide Inv, Tally, PendingFor, Phased, Wired, WindowOk;
    HeadFacts(n, s, t);
    var cmd := Box(n.inbox, s)[0];
    assert cmd in Box(n.inbox, s);
  }

  lemma ConsumerStepStallsIff(n: Network, s: StageId, cb: Callback, t: Tag)
    requires Inv(n) && NoEmptyMail(n) && Enabled(n, Process(s, cb)) && Undisturbed(n, t) && s == n.links[t].consumer
    ensures Stalled(Apply(n, Process(s, cb)), t) <==> Stalled(n, t) || StallingStep(n, Process(s, cb), t)
  {
    hide Inv, Handle, Tally, Phased, Wired, Credit, NoEmptyMail, ServesOut;
    var st, cmd := n.stages[s], Box(n.inbox, s)[0];
    HeadFacts(n, s, t);
    HeadExpected(n, s, t);
    NonEmptyHead(n, s);
    var st' := Handle(st, cmd, cb, AlwaysOpen).stage;
    assert At(Apply(n, Process(s, cb)), s) == st';
    if cmd.Events? && cmd.tag == t {
      hide WindowOk, Stalling;
      HandleStallsIff(st, cmd.events, cb, t);
      OnlyIfOutstanding(st, t, cmd.events, cb.emitted);
    } else if cmd.Confirmed? && cmd.tag == t {
      ConfirmedOpens(st, cmd, cb, t);
    } else {
      OthersKeepWindow(st, cmd, cb, t);
    }
  }

  lemma OnlyIfOutstanding(st: Stage, t: Tag, events: seq<Value>, emitted: seq<Value>)
    ensures Stalling(st, t, events, emitted) ==> t in st.upstreams && st.upstreams[t].outstanding > 0
  {
  }

  lemma NonEmptyHead(n: Network, s: StageId)
    requires NoEmptyMail(n) && Box(n.inbox, s) != []
    ensures var cmd := Box(n.inbox, s)[0]; cmd.Events? ==> cmd.events != []
  {
    assert Box(n.inbox, s)[0] in Box(n.inbox, s);
  }

  lemma ConfirmedOpens(st: Stage, cmd: Command, cb: Callback, t: Tag)
    requires cmd.Confirmed? && cmd.tag == t
    ensures var up := Handle(st, cmd, cb, AlwaysOpen).stage.upstreams; t in up && (up[t].mode == Automatic ==> up[t].outstanding > 0)
  {
  }

  /** Every step, exactly: a subscription is stalled after it if and only if it was
      before, or the step is its consumer using up the window without asking. */
  lemma StepStallsIff(n: Network, a: Action, t: Tag)
    requires Inv(n) && NoEmptyMail(n) && Enabled(n, a) && Undisturbed(n, t) && Undisturbed(Apply(n, a), t)
    ensures Stalled(Apply(n, a), t) <==> Stalled(n, t) || StallingStep(n, a, t)
  {
    hide Inv, NoEmptyMail, Stalling, React;
    var c := n.links[t].consumer;
    InvStages(n, t);
    if a.Process? && a.at == c {
      ConsumerStepStallsIff(n, c, a.cb, t);
    } else {
      assert At(Apply(n, a), c) == At(n, c);
    }
  }

  lemma InvStages(n: Network, t: Tag)
    requires Inv(n) && t in n.links
    ensures n.links[t].producer in n.stages && n.links[t].consumer in n.stages
  {
    hide StagePlaced, MailPlaced, Phased, Solvent;
  }

  lemma {:induction false} OnlyGrows(run: seq<Action>, k: nat)
    requires k <= |run|
    ensures var n, n' := Exec(run[..k]), Exec(run);
            && n.cancelled <= n'.cancelled && n.asked <= n'.asked
            && forall t :: t in n.links ==> t in n'.links && n'.links[t] == n.links[t]
    decreases |run|
  {
    if k == |run| {
      assert run[..k] == run;
    } else {
      hide React;
      var init := run[..|run| - 1];
      OnlyGrows(init, k);
      assert init[..k] == run[..k];
    }
  }

  /** A subscription is stalled at the end of a run if and only if some step of the run
      was its consumer using up the window without asking: below the threshold, or with
      no demand left downstream. */
  lemma {:induction false} StalledIffSomeStepStalled(run: seq<Action>, t: Tag)
    requires Undisturbed(Exec(run), t)
    ensures Stalled(Exec(run), t) <==> exists k :: 0 <= k < |run| && StallingStep(Exec(run[..k]), run[k], t)
    decreases |run|
  {
    hide Stalled, StallingStep, Inv, NoEmptyMail, Apply;
    if run != [] {
      var m := |run| - 1;
      var init, n, a := run[..m], Exec(run[..m]), run[m];
      forall k | 0 <= k < m ensures init[..k] == run[..k] && init[k] == run[k] {}
      InvAlways(init);
      MailNeverEmpty(init);
      OnlyGrows(run, m);
      if t in n.links {
        StalledIffSomeStepStalled(init, t);
        if Enabled(n, a) { StepStallsIff(n, a, t); } else { DisabledNeverStalls(n, a, t); }
      } else {
        NewlyLinked(run, t);
      }
    }
  }

  lemma DisabledNeverStalls(n: Network, a: Action, t: Tag)
    requires !Enabled(n, a) || t !in n.links
    ensures !StallingStep(n, a, t)
  {
  }

  /** A subscription that has just been requested is not stalled and never was. */
  lemma NewlyLinked(run: seq<Action>, t: Tag)
    requires run != [] && t !in Exec(run[..|run| - 1]).links
    ensures !Stalled(Exec(run), t) && forall k :: 0 <= k < |run| ==> !StallingStep(Exec(run[..k]), run[k], t)
  {
    hide StallingStep, Stalled, Inv, Apply;
    var m := |run| - 1;
    var init := run[..m];
    forall k | 0 <= k < |run| ensures !StallingStep(Exec(run[..k]), run[k], t) {
      OnlyGrows(init, k);
      assert init[..k] == run[..k];
      DisabledNeverStalls(Exec(run[..k]), run[k], t);
    }
    InvAlways(init);
    UnlinkedIsNotStalled(Exec(init), run[m], t);
  }

  lemma UnlinkedIsNotStalled(n: Network, a: Action, t: Tag)
    requires Inv(n) && t !in n.links
    ensures !Stalled(n, t) && (Enabled(n, a) ==> !Stalled(Apply(n, a), t))
  {
    hide Phased, Solvent, Wired, MailPlaced, React;
    if Enabled(n, a) && a.ClientSubscribe? {
      assert StagePlaced(n, a.link.consumer);
    }
  }

  /** While nothing is outstanding the consumer of `t` handles nothing more. */
  lemma StalledStep(tr: Trace, a: Action, t: Tag)
    requires Inv(tr.net) && NoEmptyMail(tr.net) && Enabled(tr.net, a) && Stalled(tr.net, t)
    requires Undisturbed(Apply(tr.net, a), t)
    ensures Stalled(Apply(tr.net, a), t) && Handled(Follow(tr, a), t) == Handled(tr, t)
  {
    hide Inv, NoEmptyMail, React, Emitted, Fates;
    StepStallsIff(tr.net, a, t);
    if a.Process? { StalledGetsNothing(tr.net, a.at, t); }
  }

  /** A stall is for good: however the run goes on, as long as the subscription stays
      undisturbed its consumer has nothing outstanding and handles nothing more. No
      demand from further downstream changes that. */
  lemma {:induction false} StallIsForever(run: seq<Action>, more: seq<Action>, t: Tag)
    requires Stalled(Exec(run), t) && Undisturbed(Exec(run + more), t)
    ensures Stalled(Exec(run + more), t) && Handled(Record(run + more), t) == Handled(Record(run), t)
    decreases |more|
  {
    hide Stalled, Inv, NoEmptyMail, Follow, Handled;
    if more == [] {
      assert run + more == run;
    } else {
      var all, m := run + more, |run + more| - 1;
      var init := all[..m];
      assert init == run + more[..|more| - 1];
      OnlyGrows(all, m);
      StalledIsUndisturbed(Exec(run), t);
      OnlyGrows(init, |run|);
      assert init[..|run|] == run;
      StallIsForever(run, more[..|more| - 1], t);
      InvAlways(init);
      MailNeverEmpty(init);
      RecordFollowsExec(init);
      RecordFollowsExec(all);
      if Enabled(Exec(init), all[m]) {
        hide Apply;
        StalledStep(Record(init), all[m], t);
      }
    }
  }

  lemma StalledIsUndisturbed(n: Network, t: Tag)
    requires Stalled(n, t)
    ensures Undisturbed(n, t)
  {
  }

  // ---------------------------------------------------------------------------
  // Two runs that stall
  // ---------------------------------------------------------------------------

  // A producer 0 feeds a producer-consumer 1 on tag 7, which feeds a consumer 2 on tag 8.

  const IDLE := Callback(Automatic, [], [])

  function Source(): Stage
  {
    Stage(0, Producer, DemandDispatcher, map[], map[7 := 1], [ConsumerDemand(7, 0)], [])
  }

  function Middle(up: map<Tag, Upstream>, pending: nat): Stage
  {
    Stage(1, ProducerConsumer, DemandDispatcher, up, map[8 := 2], [ConsumerDemand(8, pending)], [])
  }

  function Opts(m: Usize): SubscribeOpts
  {
    SubscribeOpts(m, m)
  }

  lemma ExecSnoc(run: seq<Action>, a: Action)
    requires Enabled(Exec(run), a)
    ensures Exec(run + [a]) == Apply(Exec(run), a)
  {
    assert (run + [a])[..|run|] == run;
  }

  /** A stage that handles a command with the outcome `r`. */
  lemma Reacts(n: Network, s: StageId, cb: Callback, r: Step)
    requires Enabled(n, Process(s, cb)) && React(n, s, cb) == r && |r.out| <= 1
    ensures var n' := Apply(n, Process(s, cb));
            && n'.stages == n.stages[s := r.stage]
            && n'.links == n.links && n'.cancelled == n.cancelled && n'.asked == n.asked
            && forall x :: Box(n'.inbox, x) ==
                 (if x == s then Box(n.inbox, s)[1..] else Box(n.inbox, x))
                 + (if r.out != [] && r.out[0].to == x then [r.out[0].cmd] else [])
  {
    hide React;
    forall x ensures Mail(r.out, x) == if r.out != [] && r.out[0].to == x then [r.out[0].cmd] else [] {
      if r.out != [] { assert r.out[1..] == []; assert Mail(r.out[1..], x) == []; }
    }
    forall x { BoxAfter(n, s, cb, x); }
  }

  /** The three stages, with the last one joined to the middle one. */
  lemma MiddleJoined() returns (run: seq<Action>)
    ensures var n := Exec(run);
            && 0 in n.stages && n.stages[0] == Stage(0, Producer, DemandDispatcher, map[], map[], [], [])
            && 1 in n.stages && n.stages[1] == Middle(map[], 0)
            && Box(n.inbox, 0) == [] && Box(n.inbox, 1) == []
            && 7 !in n.links && 8 in n.links && n.links[8] == Link(1, 2) && n.cancelled == {} && n.asked == {}
  {
    hide React, Apply;
    run := Spawned();
    var n := Exec(run);
    var opts := Opts(1);
    var a := ClientSubscribe(8, Link(1, 2), opts);
    ExecSnoc(run, a);
    Posts(n, a, Out(1, Subscribe(8, 2, opts)));
    run := run + [a];
    n := Exec(run);
    MiddleSubscribed(n, opts);
    Reacts(n, 1, IDLE, Step(Middle(map[], 0), [Out(2, Confirmed(8, 1, opts))]));
    ExecSnoc(run, Process(1, IDLE));
    run := run + [Process(1, IDLE)];
  }

  /** The three stages, with one event wanted of the middle one. */
  lemma MiddleWanted() returns (run: seq<Action>)
    ensures var n := Exec(run);
            && 0 in n.stages && n.stages[0] == Stage(0, Producer, DemandDispatcher, map[], map[], [], [])
            && 1 in n.stages && n.stages[1] == Middle(map[], 1)
            && Box(n.inbox, 0) == [] && Box(n.inbox, 1) == []
            && 7 !in n.links && n.cancelled == {} && n.asked == {8}
  {
    hide React, Apply;
    run := MiddleJoined();
    var n := Exec(run);
    var a := ClientAsk(1, 8, 1);
    ExecSnoc(run, a);
    Posts(n, a, Out(1, AskDemand(8, 1)));
    run := run + [a];
    n := Exec(run);
    MiddleAsked(n);
    Reacts(n, 1, IDLE, Step(Middle(map[], 1), []));
    ExecSnoc(run, Process(1, IDLE));
    run := run + [Process(1, IDLE)];
  }

  lemma Spawned() returns (run: seq<Action>)
    ensures var n := Exec(run);
            && n.stages == map[0 := Stage(0, Producer, DemandDispatcher, map[], map[], [], []),
                               1 := Stage(1, ProducerConsumer, DemandDispatcher, map[], map[], [], []),
                               2 := Stage(2, Consumer, DemandDispatcher, map[], map[], [], [])]
            && n.inbox == map[] && n.links == map[] && n.cancelled == {} && n.asked == {}
  {
    var a, b, c := Spawn(0, Producer, DemandDispatcher), Spawn(1, ProducerConsumer, DemandDispatcher),
                   Spawn(2, Consumer, DemandDispatcher);
    run := [a] + [b] + [c];
    assert [] + [a] == [a];
    ExecSnoc([], a);
    ExecSnoc([a], b);
    ExecSnoc([a] + [b], c);
  }

  /** A client action puts one command into one channel. */
  lemma Posts(n: Network, a: Action, o: Out)
    requires Enabled(n, a)
    requires match a
             case ClientSubscribe(tag, link, opts) => o == Out(link.producer, Subscribe(tag, link.consumer, opts))
             case ClientAsk(at, tag, demand) => o == Out(at, AskDemand(tag, demand))
             case _ => false
    ensures var n' := Apply(n, a);
            && n'.stages == n.stages && n'.cancelled == n.cancelled
            && n'.asked == (if a.ClientAsk? then n.asked + {a.tag} else n.asked)
            && n'.links == (if a.ClientSubscribe? then n.links[a.tag := a.link] else n.links)
            && forall x :: Box(n'.inbox, x) == Box(n.inbox, x) + if x == o.to then [o.cmd] else []
  {
    forall x { PostBox(n.inbox, o, x, Asks, 0); }
  }

  lemma MiddleSubscribed(n: Network, opts: SubscribeOpts)
    requires 1 in n.stages && n.stages[1] == Stage(1, ProducerConsumer, DemandDispatcher, map[], map[], [], [])
    requires Box(n.inbox, 1) == [Subscribe(8, 2, opts)]
    ensures React(n, 1, IDLE) == Step(Middle(map[], 0), [Out(2, Confirmed(8, 1, opts))])
  {
  }

  lemma MiddleAsked(n: Network)
    requires 1 in n.stages && n.stages[1] == Middle(map[], 0) && Box(n.inbox, 1) == [AskDemand(8, 1)]
    ensures React(n, 1, IDLE) == Step(Middle(map[], 1), [])
  {
    assert [ConsumerDemand(8, 0)][1..] == [];
  }

  function Window(m: nat, outstanding: nat): map<Tag, Upstream>
    requires m <= U64_MAX
  {
    map[7 := Upstream(0, Automatic, m, m, 0, outstanding)]
  }

  lemma SourceSubscribed(n: Network, m: Usize)
    requires 0 in n.stages && n.stages[0] == Stage(0, Producer, DemandDispatcher, map[], map[], [], [])
    requires Box(n.inbox, 0) == [Subscribe(7, 1, Opts(m))]
    ensures React(n, 0, IDLE) == Step(Source(), [Out(1, Confirmed(7, 0, Opts(m)))])
  {
  }

  lemma MiddleConfirmed(n: Network, m: Usize)
    requires 1 in n.stages && n.stages[1] == Middle(map[], 1) && m >= 1
    requires Box(n.inbox, 1) == [Confirmed(7, 0, Opts(m))]
    ensures React(n, 1, IDLE) == Step(Middle(Window(m, m), 1), [Out(0, AskDemand(7, m))])
  {
  }

  lemma SourceServes(n: Network, vs: seq<Value>)
    requires 0 in n.stages && n.stages[0] == Source() && vs != []
    requires Box(n.inbox, 0) == [AskDemand(7, |vs|)]
    ensures React(n, 0, Callback(Automatic, vs, [])) == Step(Source(), [Out(1, Events(7, vs))])
  {
    var st1 := Source().(demands := [ConsumerDemand(7, |vs|)]);
    assert [ConsumerDemand(7, 0)][1..] == [];
    assert AddDemand(Source().demands, 7, |vs|) == st1.demands;
    assert DrainBuffer(st1, AlwaysOpen) == Step(st1, []);
    assert TotalDemand(st1.demands) == |vs| by { assert st1.demands[1..] == []; }
    SoleConsumerServed(st1, vs);
  }

  lemma SoleConsumerServed(st: Stage, vs: seq<Value>)
    requires vs != [] && st == Source().(demands := [ConsumerDemand(7, |vs|)])
    ensures DispatchAndDeliver(st, vs, AlwaysOpen) == Step(Source(), [Out(1, Events(7, vs))])
  {
    var none: seq<ConsumerDemand> := [];
    assert st.demands[1..] == none && vs[..|vs|] == vs && vs[|vs|..] == [];
    assert DemandDispatch([], none) == DispatchResult([], [], none);
    var ds := [Delivery(7, vs)];
    assert Dispatch(st.dispatcher, vs, st.demands) == DispatchResult(ds + [], [], [ConsumerDemand(7, 0)] + []);
    assert ds + [] == ds && ds[..0] == [];
    assert Deliver(st.downstreams, ds, AlwaysOpen).out == [] + [Out(1, Events(7, vs))];
    assert Deliver(st.downstreams, ds, AlwaysOpen) == Delivered([Out(1, Events(7, vs))], [], []);
  }

  /** The middle stage's window is open, its consumer wants one event, and a whole window
      of events is on its way to it. */
  ghost predicate WindowServed(n: Network, m: Usize, outstanding: nat, vs: seq<Value>)
  {
    && 0 in n.stages && n.stages[0] == Source()
    && 1 in n.stages && n.stages[1] == Middle(Window(m, outstanding), 1)
    && Box(n.inbox, 0) == [] && Box(n.inbox, 1) == [Events(7, vs)]
    && 7 in n.links && n.links[7] == Link(0, 1) && 7 !in n.cancelled && 7 !in n.asked
  }

  lemma FirstWindow(m: Usize, vs: seq<Value>) returns (run: seq<Action>)
    requires |vs| == m && m >= 1
    ensures WindowServed(Exec(run), m, m, vs)
  {
    hide React, Apply;
    run := MiddleWanted();
    var a := ClientSubscribe(7, Link(0, 1), Opts(m));
    ExecSnoc(run, a);
    Posts(Exec(run), a, Out(0, Subscribe(7, 1, Opts(m))));
    run := run + [a];
    SourceSubscribed(Exec(run), m);
    Reacts(Exec(run), 0, IDLE, Step(Source(), [Out(1, Confirmed(7, 0, Opts(m)))]));
    ExecSnoc(run, Process(0, IDLE));
    run := run + [Process(0, IDLE)];
    MiddleConfirmed(Exec(run), m);
    Reacts(Exec(run), 1, IDLE, Step(Middle(Window(m, m), 1), [Out(0, AskDemand(7, m))]));
    ExecSnoc(run, Process(1, IDLE));
    run := run + [Process(1, IDLE)];
    run := Served(run, m, m, vs);
  }

  /** The source answers an ask with exactly what was asked for. */
  lemma Served(run: seq<Action>, m: Usize, outstanding: nat, vs: seq<Value>) returns (run': seq<Action>)
    requires vs != []
    requires var n := Exec(run);
             && 0 in n.stages && n.stages[0] == Source()
             && 1 in n.stages && n.stages[1] == Middle(Window(m, outstanding), 1)
             && Box(n.inbox, 0) == [AskDemand(7, |vs|)] && Box(n.inbox, 1) == []
             && 7 in n.links && n.links[7] == Link(0, 1) && 7 !in n.cancelled && 7 !in n.asked
    ensures WindowServed(Exec(run'), m, outstanding, vs)
  {
    hide React, Apply;
    var cb := Callback(Automatic, vs, []);
    SourceServes(Exec(run), vs);
    Reacts(Exec(run), 0, cb, Step(Source(), [Out(1, Events(7, vs))]));
    ExecSnoc(run, Process(0, cb));
    run' := run + [Process(0, cb)];
  }

  /** First way: the middle stage passes on the one event its consumer asked for. That
      uses up the demand downstream, so it does not ask again; and it never will, however
      much its consumer asks for later. */
  lemma StallsWhenServed(v: Value) returns (run: seq<Action>, last: Action)
    ensures last == Process(1, Callback(Automatic, [], [v])) && TotalDemand(At(Exec(run), 1).demands) == 1
    ensures !Stalled(Exec(run), 7) && Stalled(Exec(run + [last]), 7)
  {
    hide React, Apply, StallingStep;
    run := FirstWindow(1, [v]);
    last := Process(1, Callback(Automatic, [], [v]));
    assert TotalDemand([ConsumerDemand(8, 1)]) == 1 by { assert [ConsumerDemand(8, 1)][1..] == []; }
    ServedOutStalls(Exec(run), v, last);
    Stalls(run, last);
  }

  lemma ServedOutStalls(n: Network, v: Value, a: Action)
    requires WindowServed(n, 1, 1, [v]) && a == Process(1, Callback(Automatic, [], [v]))
    ensures StallingStep(n, a, 7)
  {
    assert [ConsumerDemand(8, 1)][1..] == [];
    assert TotalDemand([ConsumerDemand(8, 1)]) == 1;
  }

  lemma Stalls(run: seq<Action>, a: Action)
    requires StallingStep(Exec(run), a, 7) && Undisturbed(Exec(run), 7)
    ensures Stalled(Exec(run + [a]), 7)
  {
    hide React, Stalled, Inv, NoEmptyMail, Stalling;
    InvAlways(run);
    MailNeverEmpty(run);
    ExecSnoc(run, a);
    StepStallsIff(Exec(run), a, 7);
  }

  /** Second way: a window of two is asked for again only in part, because downstream
      wants one; that one event stays below the threshold of two. The middle stage stops
      although its consumer still wants an event. */
  lemma StallsBelowThreshold(v: Value) returns (run: seq<Action>)
    ensures Stalled(Exec(run), 7) && TotalDemand(At(Exec(run), 1).demands) == 1
  {
    hide React, Apply, Stalled, StallingStep;
    run := FirstWindow(2, [v, v]);
    MiddleTakesTwo(Exec(run), v);
    Reacts(Exec(run), 1, IDLE, Step(Middle(Window(2, 1), 1), [Out(0, AskDemand(7, 1))]));
    ExecSnoc(run, Process(1, IDLE));
    run := run + [Process(1, IDLE)];
    run := Served(run, 2, 1, [v]);
    var a := Process(1, IDLE);
    BelowThresholdStalls(Exec(run), v, a);
    MiddleTakesOne(Exec(run), v);
    Reacts(Exec(run), 1, IDLE, React(Exec(run), 1, IDLE));
    ExecSnoc(run, a);
    InvAlways(run);
    MailNeverEmpty(run);
    StillUndisturbed(Exec(run), a);
    StepStallsIff(Exec(run), a, 7);
    run := run + [a];
  }

  lemma StillUndisturbed(n: Network, a: Action)
    requires Undisturbed(n, 7) && Enabled(n, a) && a.Process?
    ensures Undisturbed(Apply(n, a), 7)
  {
    hide React;
  }

  lemma MiddleTakesTwo(n: Network, v: Value)
    requires WindowServed(n, 2, 2, [v, v])
    ensures React(n, 1, IDLE) == Step(Middle(Window(2, 1), 1), [Out(0, AskDemand(7, 1))])
  {
    assert [ConsumerDemand(8, 1)][1..] == [];
    assert TotalDemand([ConsumerDemand(8, 1)]) == 1;
  }

  lemma MiddleTakesOne(n: Network, v: Value)
    requires WindowServed(n, 2, 1, [v])
    ensures var r := React(n, 1, IDLE); r.out == [] && TotalDemand(r.stage.demands) == 1
  {
    assert [ConsumerDemand(8, 1)][1..] == [];
    assert TotalDemand([ConsumerDemand(8, 1)]) == 1;
  }

  lemma BelowThresholdStalls(n: Network, v: Value, a: Action)
    requires WindowServed(n, 2, 1, [v]) && a == Process(1, IDLE)
    ensures StallingStep(n, a, 7)
  {
  }
}

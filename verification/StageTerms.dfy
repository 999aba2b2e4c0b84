/** The terms of a subscription: what was asked for when subscribing is what holds in every
    run; and a peer whose channel is closed is dropped when a send to it fails. */
module StageTerms {
  import opened Values
  import opened StageDispatch
  import opened StageLoop
  import opened StageNetwork
  import opened StageCredit
  import opened StageRuns
  import StageLimits
  import StageStall

  // ---------------------------------------------------------------------------
  // Negotiated windows
  // ---------------------------------------------------------------------------

  /** The window is the one asked for, at least one event wide, with its threshold inside;
      by hand nothing is counted. */
  ghost predicate OnTerms(up: Upstream, opts: SubscribeOpts)
  {
    && up.maxDemand == Max(opts.maxDemand, 1) && up.minDemand == Min(opts.minDemand, Max(opts.maxDemand, 1))
    && (up.mode == Manual ==> up.outstanding == up.pendingEvents == 0)
  }

  /** Handling another command leaves the terms of a subscription alone. */
  lemma HandleKeepsTerms(st: Stage, cmd: Command, cb: Callback, t: Tag, opts: SubscribeOpts)
    requires Wired(st) && t in st.upstreams && OnTerms(st.upstreams[t], opts)
    requires !(cmd.Confirmed? && cmd.tag == t)
    ensures var ups := Handle(st, cmd, cb, AlwaysOpen).stage.upstreams; t in ups ==> OnTerms(ups[t], opts)
  {
    hide DispatchAndDeliver, DrainBuffer, Wired, TagsOf, PendingFor, Sent;
    match cmd
    case Subscribe(_, _, _) =>
    case Confirmed(_, _, _) =>
    case Cancel(_) =>
    case AskDemand(tag, demand) =>
      if tag !in st.upstreams {
        var st1 := st.(demands := AddDemand(st.demands, tag, demand));
        AddDemandPending(st.demands, tag, demand, t);
        SameTagsWired(st, st1);
        DispatchShips(st1, [], t);
        var drained := DrainBuffer(st1, AlwaysOpen);
        SameTagsWired(st1, drained.stage);
        DispatchShips(drained.stage, cb.produced, t);
      }
    case Events(tag, events) => DispatchShips(st, cb.emitted, t);
    case Emit => DispatchShips(st, cb.emitted, t);
  }

  predicate AsAsked(cmd: Command, t: Tag, opts: SubscribeOpts)
  {
    (cmd.Subscribe? || cmd.Confirmed?) && cmd.tag == t ==> cmd.opts == opts
  }

  /** Whatever concerns `t`, in transit or on record, is on the terms `opts`. */
  ghost predicate Agreed(n: Network, t: Tag, opts: SubscribeOpts)
  {
    && (forall s, cmd :: cmd in Box(n.inbox, s) ==> AsAsked(cmd, t, opts))
    && (forall s :: RecordAgreed(n, s, t, opts))
  }

  ghost predicate RecordAgreed(n: Network, s: StageId, t: Tag, opts: SubscribeOpts)
  {
    t in At(n, s).upstreams ==> OnTerms(At(n, s).upstreams[t], opts)
  }

  lemma ProcessKeepsAgreed(n: Network, s: StageId, cb: Callback, t: Tag, opts: SubscribeOpts)
    requires Inv(n) && Enabled(n, Process(s, cb)) && Agreed(n, t, opts)
    ensures Agreed(Apply(n, Process(s, cb)), t, opts)
  {
    hide Inv, Mail, Wired, Handle, Rewired;
    var n', r, cmd := Apply(n, Process(s, cb)), React(n, s, cb), Box(n.inbox, s)[0];
    ReactRoutes(n, s, cb);
    assert AsAsked(cmd, t, opts);
    forall x, c | c in Box(n'.inbox, x) ensures AsAsked(c, t, opts) {
      BoxAfter(n, s, cb, x);
      if c in Mail(r.out, x) {
        MailMember(r.out, x, c);
        assert Justified(n.stages[s], cmd, Out(x, c));
      } else {
        assert c in Box(n.inbox, x);
      }
    }
    forall x ensures RecordAgreed(n', x, t, opts) {
      assert RecordAgreed(n, x, t, opts);
      if x == s { ReactAgreed(n, s, cb, t, opts); }
    }
  }

  lemma ReactAgreed(n: Network, s: StageId, cb: Callback, t: Tag, opts: SubscribeOpts)
    requires Inv(n) && Enabled(n, Process(s, cb)) && Agreed(n, t, opts)
    ensures var ups := React(n, s, cb).stage.upstreams; t in ups ==> OnTerms(ups[t], opts)
  {
    hide Inv, Wired, Mail;
    var cmd, st := Box(n.inbox, s)[0], n.stages[s];
    assert AsAsked(cmd, t, opts) && RecordAgreed(n, s, t, opts);
    if !(cmd.Confirmed? && cmd.tag == t) {
      hide Handle;
      ReactRoutes(n, s, cb);
      if !(cmd.Cancel? && cmd.tag == t) { assert SameUpstream(st, React(n, s, cb).stage, t); }
      if t in st.upstreams { HandleKeepsTerms(st, cmd, cb, t, opts); }
    }
  }

  lemma PostKeepsAgreed(n: Network, n': Network, o: Out, t: Tag, opts: SubscribeOpts)
    requires n'.stages == n.stages && n'.inbox == Post(n.inbox, o) && AsAsked(o.cmd, t, opts) && Agreed(n, t, opts)
    ensures Agreed(n', t, opts)
  {
    forall s ensures RecordAgreed(n', s, t, opts) { assert RecordAgreed(n, s, t, opts); }
    forall s, cmd | cmd in Box(n'.inbox, s) ensures AsAsked(cmd, t, opts) {
      if cmd != o.cmd { assert cmd in Box(n.inbox, s); }
    }
  }

  lemma NewAgreed(n: Network, tag: Tag, link: Link, opts: SubscribeOpts)
    requires Inv(n) && Enabled(n, ClientSubscribe(tag, link, opts))
    ensures Agreed(n, tag, opts)
  {
    hide Wired, Phased, Solvent;
    forall s ensures RecordAgreed(n, s, tag, opts) { assert StagePlaced(n, s); }
    forall s, cmd | cmd in Box(n.inbox, s) ensures AsAsked(cmd, tag, opts) {
      assert MailPlaced(n, s);
      assert Placed(n, s, cmd);
    }
  }

  lemma SpawnKeepsAgreed(n: Network, id: StageId, kind: StageType, d: Dispatcher, t: Tag, opts: SubscribeOpts)
    requires Enabled(n, Spawn(id, kind, d)) && Agreed(n, t, opts)
    ensures Agreed(Apply(n, Spawn(id, kind, d)), t, opts)
  {
    var n' := Apply(n, Spawn(id, kind, d));
    forall s ensures RecordAgreed(n', s, t, opts) { assert RecordAgreed(n, s, t, opts); }
  }

  lemma StepKeepsAgreed(n: Network, a: Action, t: Tag, opts: SubscribeOpts)
    requires Inv(n) && Enabled(n, a) && t in n.links && Agreed(n, t, opts)
    ensures Agreed(Apply(n, a), t, opts)
  {
    hide Inv, React, Agreed;
    var n' := Apply(n, a);
    match a
    case Process(s, cb) => ProcessKeepsAgreed(n, s, cb, t, opts);
    case ClientSubscribe(tag, link, o) => PostKeepsAgreed(n, n', Out(link.producer, Subscribe(tag, link.consumer, o)), t, opts);
    case Spawn(id, kind, d) => SpawnKeepsAgreed(n, id, kind, d, t, opts);
    case ClientCancel(at, tag) => PostKeepsAgreed(n, n', Out(at, Cancel(tag)), t, opts);
    case ClientAsk(at, tag, demand) => PostKeepsAgreed(n, n', Out(at, AskDemand(tag, demand)), t, opts);
    case ClientEmit(at) => PostKeepsAgreed(n, n', Out(at, Emit), t, opts);
  }

  /** Step `k` of the run subscribed `t` with these options. */
  ghost predicate SubscribedAt(run: seq<Action>, k: nat, t: Tag, opts: SubscribeOpts)
  {
    k < |run| && run[k].ClientSubscribe? && run[k].tag == t && run[k].opts == opts && Enabled(Exec(run[..k]), run[k])
  }

  /** In every run the window of a subscription, wherever it is on record, is the one that
      was asked for when subscribing, with at least one event and the threshold inside it;
      in manual mode it counts nothing. */
  lemma {:induction false} NegotiatedAsAsked(run: seq<Action>, t: Tag) returns (k: nat, opts: SubscribeOpts)
    requires t in Exec(run).links
    ensures SubscribedAt(run, k, t, opts) && Agreed(Exec(run), t, opts)
    decreases |run|
  {
    hide Inv, Agreed, Apply;
    var init, a := run[..|run| - 1], run[|run| - 1];
    var n := Exec(init);
    InvAlways(init);
    if t in n.links {
      k, opts := NegotiatedAsAsked(init, t);
      assert run[..k] == init[..k];
      if Enabled(n, a) { StepKeepsAgreed(n, a, t, opts); }
    } else {
      k := |init|;
      opts := LinkedBy(n, a, t);
      NewAgreed(n, t, a.link, opts);
      PostKeepsAgreed(n, Apply(n, a), Out(a.link.producer, Subscribe(t, a.link.consumer, opts)), t, opts);
    }
  }

  lemma LinkedBy(n: Network, a: Action, t: Tag) returns (opts: SubscribeOpts)
    requires t !in n.links && Enabled(n, a) && t in Apply(n, a).links
    ensures a.ClientSubscribe? && a.tag == t && a.opts == opts
    ensures Apply(n, a).stages == n.stages
    ensures Apply(n, a).inbox == Post(n.inbox, Out(a.link.producer, Subscribe(t, a.link.consumer, opts)))
  {
    hide React;
    opts := a.opts;
  }

  // ---------------------------------------------------------------------------
  // Closed channels
  // ---------------------------------------------------------------------------

  lemma {:induction false} DeadIff(downstreams: map<Tag, StageId>, ds: seq<Delivery>, peer: Tag -> Channel, t: Tag)
    requires forall x :: x in ds ==> x.events != [] && x.tag in downstreams
    ensures t in Deliver(downstreams, ds, peer).dead <==> peer(t) == Closed && EventsFor(ds, t) != []
    decreases |ds|
  {
    if ds != [] {
      var init, d := ds[..|ds| - 1], ds[|ds| - 1];
      assert d in ds && init + [d] == ds;
      forall x | x in init ensures x in ds {}
      DeadIff(downstreams, init, peer, t);
      StageLimits.EventsForSnoc(init, d, t);
    }
  }

  lemma {:induction false} CleanupDrops(st: Stage, dead: seq<Tag>, t: Tag)
    requires Wired(st)
    ensures var st' := CleanupDead(st, dead);
            && Wired(st') && (t in st'.downstreams <==> t in st.downstreams && t !in dead)
            && (t in st'.downstreams ==> st'.downstreams[t] == st.downstreams[t])
            && st'.upstreams == st.upstreams && st'.buffer == st.buffer
    decreases |dead|
  {
    if dead != [] {
      var n := |dead| - 1;
      CleanupDrops(st, dead[..n], t);
      assert dead == dead[..n] + [dead[n]];
      DropWired(CleanupDead(st, dead[..n]), dead[n]);
    }
  }

  /** A consumer is dropped by a dispatch if and only if its channel is closed and the batch
      has something for it; its demand is forgotten with it. */
  lemma ClosedConsumerIsDropped(st: Stage, events: seq<Value>, peer: Tag -> Channel, t: Tag)
    requires Wired(st) && events != [] && t in st.downstreams
    ensures var r := DispatchAndDeliver(st, events, peer);
            && (t !in r.stage.downstreams <==>
                  peer(t) == Closed && !StageLimits.Unserved(st.dispatcher, |events|, st.demands, t))
            && (t in TagsOf(r.stage.demands) <==> t in r.stage.downstreams)
  {
    hide Dispatch, Deliver, CleanupDead, BufferLeftover, EventsFor, StageLimits.Unserved;
    var d := Dispatch(st.dispatcher, events, st.demands);
    DispatchDeliverable(st, events);
    StageStall.DeliveriesNonEmpty(st.dispatcher, events, st.demands);
    forall x | x in d.deliveries ensures x.tag in st.downstreams {
      var i :| 0 <= i < |d.deliveries| && d.deliveries[i] == x;
    }
    DeadIff(st.downstreams, d.deliveries, peer, t);
    StageLimits.UnservedIff(st.dispatcher, events, st.demands, t);
    var sent := Deliver(st.downstreams, d.deliveries, peer);
    var st1 := st.(demands := d.demands, buffer := BufferLeftover(BufferLeftover(st.buffer, d.leftover), sent.undelivered));
    DispatchConservesDemand(st.dispatcher, events, st.demands, t);
    SameTagsWired(st, st1);
    CleanupDrops(st1, sent.dead, t);
    TagsAreDownstreams(CleanupDead(st1, sent.dead), t);
  }

  lemma TagsAreDownstreams(st: Stage, t: Tag)
    requires Wired(st)
    ensures t in TagsOf(st.demands) <==> t in st.downstreams
  {
  }

  /** An ask to a closed producer ends the subscription at once; after events it does so if
      and only if the threshold is reached and there is something to ask for. Nothing is
      sent to it either way. */
  lemma ClosedProducerIsDropped(st: Stage, t: Tag, demand: nat, n: nat, cb: Callback, peer: Tag -> Channel)
    requires t in st.upstreams && peer(t) == Closed
    ensures var r := Handle(st, AskDemand(t, demand), cb, peer);
            r.out == [] && r.stage == st.(upstreams := st.upstreams - {t})
    ensures var r, up := Replenish(st, t, n, peer), st.upstreams[t];
            && r.out == []
            && (t !in r.stage.upstreams <==>
                  && up.mode == Automatic && up.pendingEvents + n >= up.minDemand
                  && SaturatingSub(up.outstanding, n) < up.maxDemand && Room(st) > 0)
  {
    hide Room;
  }
}

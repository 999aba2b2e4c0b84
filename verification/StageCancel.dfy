/** Cancelling a subscription: what one stage does, and how the two ends let go of it in
    every run. A cancel that finds nothing on record does nothing, so whether it takes
    effect depends on the request and the confirmation having been handled. */
module StageCancel {
  import opened Values
  import opened StageDispatch
  import opened StageLoop
  import opened StageNetwork
  import opened StageCredit
  import opened StageRuns
  import StageStall

  // ---------------------------------------------------------------------------
  // One stage
  // ---------------------------------------------------------------------------

  /** A stage that is one end of `t` lets go of it and tells the other end, and only it;
      other subscriptions and the buffer stay as they are. Without a record of `t` nothing
      happens. */
  lemma CancelStep(st: Stage, t: Tag, cb: Callback, peer: Tag -> Channel)
    requires Wired(st) && !(t in st.upstreams && t in st.downstreams)
    ensures var r := Handle(st, Cancel(t), cb, peer);
            && t !in r.stage.upstreams && t !in r.stage.downstreams && t !in TagsOf(r.stage.demands)
            && (t in st.downstreams && peer(t) != Closed ==> r.out == [Out(st.downstreams[t], Cancel(t))])
            && (t in st.upstreams && peer(t) != Closed ==> r.out == [Out(st.upstreams[t].producer, Cancel(t))])
            && (peer(t) == Closed || (t !in st.upstreams && t !in st.downstreams) ==> r.out == [])
            && r.stage.buffer == st.buffer && r.stage.id == st.id && r.stage.kind == st.kind
            && r.stage.upstreams == st.upstreams - {t} && r.stage.downstreams == st.downstreams - {t}
            && forall x :: x != t ==> PendingFor(r.stage.demands, x) == PendingFor(st.demands, x)
  {
    WithoutTags(st.demands, t);
    if t !in st.downstreams { NotDownstreamNoPending(st, t); }
    forall x | x != t ensures PendingFor(Without(st.demands, t), x) == PendingFor(st.demands, x) {
      WithoutPending(st.demands, t, x);
    }
  }

  // ---------------------------------------------------------------------------
  // Both ends
  // ---------------------------------------------------------------------------

  /** Requests for `t` its producer has not handled. */
  function Requests(n: Network, t: Tag): nat
  {
    Tally(Box(n.inbox, Ends(n, t).producer), Subs, t)
  }

  /** Confirmations of `t` its consumer has not handled. */
  function Confirms(n: Network, t: Tag): nat
  {
    Tally(Box(n.inbox, Ends(n, t).consumer), Confs, t)
  }

  predicate AtProducer(n: Network, t: Tag)
  {
    t in At(n, Ends(n, t).producer).downstreams
  }

  predicate AtConsumer(n: Network, t: Tag)
  {
    t in At(n, Ends(n, t).consumer).upstreams
  }

  /** The producer had the subscription and let go of it. */
  ghost predicate ProducerDone(n: Network, t: Tag)
  {
    t in n.links && Requests(n, t) == 0 && !AtProducer(n, t)
  }

  /** The consumer had the subscription and let go of it. */
  ghost predicate ConsumerDone(n: Network, t: Tag)
  {
    t in n.links && Requests(n, t) == 0 && Confirms(n, t) == 0 && !AtConsumer(n, t)
  }

  predicate Confirming(cmd: Command, t: Tag)
  {
    cmd.Confirmed? && cmd.tag == t
  }

  /** A cancel of `t` is waiting, behind any confirmation of it. */
  ghost predicate CancelWaits(box: seq<Command>, t: Tag)
  {
    exists i :: 0 <= i < |box| && box[i] == Cancel(t) && forall j :: i < j < |box| ==> !Confirming(box[j], t)
  }

  /** Once one end let go, the other has too, or is about to be told. */
  ghost predicate Torn(n: Network, t: Tag)
  {
    && Requests(n, t) + Confirms(n, t) + (if AtConsumer(n, t) then 1 else 0) <= 1
    && (ProducerDone(n, t) ==> ConsumerDone(n, t) || CancelWaits(Box(n.inbox, Ends(n, t).consumer), t))
    && (ConsumerDone(n, t) ==> ProducerDone(n, t) || Cancel(t) in Box(n.inbox, Ends(n, t).producer))
  }

  // Channels.

  lemma WaitsAppend(box: seq<Command>, more: seq<Command>, t: Tag)
    requires CancelWaits(box, t) && forall cmd :: cmd in more ==> !Confirming(cmd, t)
    ensures CancelWaits(box + more, t)
  {
    var i :| 0 <= i < |box| && box[i] == Cancel(t) && forall j :: i < j < |box| ==> !Confirming(box[j], t);
    var all := box + more;
    assert all[i] == Cancel(t);
    forall j | i < j < |all| ensures !Confirming(all[j], t) {
      if j >= |box| { assert all[j] in more; }
    }
  }

  lemma WaitsLast(box: seq<Command>, t: Tag)
    ensures CancelWaits(box + [Cancel(t)], t)
  {
    assert (box + [Cancel(t)])[|box|] == Cancel(t);
  }

  /** Handling the head leaves the waiting cancel, unless it was the head and nothing
      confirms the subscription any more. */
  lemma WaitsTail(box: seq<Command>, t: Tag)
    requires box != [] && CancelWaits(box, t)
    requires box[0] != Cancel(t) || Tally(box, Confs, t) > 0
    ensures CancelWaits(box[1..], t)
  {
    var i :| 0 <= i < |box| && box[i] == Cancel(t) && forall j :: i < j < |box| ==> !Confirming(box[j], t);
    if box[0] == Cancel(t) {
      var k := ConfirmAt(box, t);
      assert i > k;
    }
    assert box[1..][i - 1] == Cancel(t);
  }

  lemma {:induction false} ConfirmAt(box: seq<Command>, t: Tag) returns (k: nat)
    requires Tally(box, Confs, t) > 0
    ensures k < |box| && Confirming(box[k], t)
    decreases |box|
  {
    if Confirming(box[0], t) {
      k := 0;
    } else {
      var l := ConfirmAt(box[1..], t);
      k := l + 1;
    }
  }

  // ---------------------------------------------------------------------------
  // Each step
  // ---------------------------------------------------------------------------

  /** The command concerns the life of subscription `t`. */
  predicate About(cmd: Command, t: Tag)
  {
    (cmd.Subscribe? || cmd.Confirmed? || cmd.Cancel?) && cmd.tag == t
  }

  /** What a step does to requests and confirmations, whatever command it handles. */
  lemma CountsAfter(n: Network, s: StageId, cb: Callback, t: Tag)
    requires Inv(n) && Enabled(n, Process(s, cb)) && t in n.links
    ensures var cmd, n' := Box(n.inbox, s)[0], Apply(n, Process(s, cb));
            && n'.links == n.links
            && Requests(n', t) == Requests(n, t) - Weight(cmd, Subs, t)
            && Confirms(n', t) == Confirms(n, t) - Weight(cmd, Confs, t) + Weight(cmd, Subs, t)
            && (Weight(cmd, Subs, t) > 0 ==> s == n.links[t].producer)
            && (Weight(cmd, Confs, t) > 0 ==> s == n.links[t].consumer)
  {
    hide Inv, Handle, Mail, Tally, Sent, Wired, Solvent, Justified, Rewired;
    var st, cmd := n.stages[s], Box(n.inbox, s)[0];
    HeadFacts(n, s, t);
    ReactRoutes(n, s, cb);
    ConfirmsSent(st, cmd, cb, t);
    MailAddressed(n, s, cb, t, n.links[t].producer);
    MailAddressed(n, s, cb, t, n.links[t].consumer);
    TallyAfter(n, s, cb, n.links[t].producer, Subs, t);
    TallyAfter(n, s, cb, n.links[t].consumer, Confs, t);
  }

  /** A step that handles another command leaves both ends as they are. */
  lemma RecordsKept(n: Network, s: StageId, cb: Callback, t: Tag)
    requires Inv(n) && Enabled(n, Process(s, cb)) && t in n.links && !About(Box(n.inbox, s)[0], t)
    ensures var n' := Apply(n, Process(s, cb));
            && (AtProducer(n', t) <==> AtProducer(n, t)) && (AtConsumer(n', t) <==> AtConsumer(n, t))
            && (forall cmd :: cmd in Mail(React(n, s, cb).out, n.links[t].consumer) ==> !Confirming(cmd, t))
  {
    hide Inv, Handle, Wired, Mail;
    ReactRoutes(n, s, cb);
    var st, st' := n.stages[s], React(n, s, cb).stage;
    assert SameUpstream(st, st', t) && SameDownstream(st, st', t);
    forall cmd | cmd in Mail(React(n, s, cb).out, n.links[t].consumer) ensures !Confirming(cmd, t) {
      MailMember(React(n, s, cb).out, n.links[t].consumer, cmd);
    }
  }

  lemma OtherKeepsTorn(n: Network, s: StageId, cb: Callback, t: Tag)
    requires Inv(n) && Torn(n, t) && Enabled(n, Process(s, cb)) && t in n.links && !About(Box(n.inbox, s)[0], t)
    ensures Torn(Apply(n, Process(s, cb)), t)
  {
    hide Inv, React, Mail, Tally, Apply, CancelWaits;
    var n', p, c := Apply(n, Process(s, cb)), n.links[t].producer, n.links[t].consumer;
    CountsAfter(n, s, cb, t);
    RecordsKept(n, s, cb, t);
    BoxAfter(n, s, cb, p);
    BoxAfter(n, s, cb, c);
    var out := React(n, s, cb).out;
    if CancelWaits(Box(n.inbox, c), t) {
      if s == c { WaitsTail(Box(n.inbox, c), t); }
      WaitsAppend(if s == c then Box(n.inbox, c)[1..] else Box(n.inbox, c), Mail(out, c), t);
    }
    if Cancel(t) in Box(n.inbox, p) {
      assert Box(n.inbox, p)[0] != Cancel(t) || s != p;
      assert Cancel(t) in Box(n'.inbox, p);
    }
  }

  /** The request is handled: the producer has the subscription, the confirmation is sent. */
  lemma SubscribeKeepsTorn(n: Network, s: StageId, cb: Callback, t: Tag)
    requires Inv(n) && Torn(n, t) && Enabled(n, Process(s, cb)) && t in n.links
    requires Box(n.inbox, s)[0].Subscribe? && Box(n.inbox, s)[0].tag == t
    ensures Torn(Apply(n, Process(s, cb)), t) && AtProducer(Apply(n, Process(s, cb)), t)
  {
    hide Inv, Handle, Mail, Tally, Wired, CancelWaits;
    CountsAfter(n, s, cb, t);
    ReactRoutes(n, s, cb);
    HeadFacts(n, s, t);
    assert SameUpstream(n.stages[s], React(n, s, cb).stage, t);
  }

  /** The confirmation is handled: the consumer has the subscription. */
  lemma ConfirmedKeepsTorn(n: Network, s: StageId, cb: Callback, t: Tag)
    requires Inv(n) && Torn(n, t) && Enabled(n, Process(s, cb)) && t in n.links
    requires Box(n.inbox, s)[0].Confirmed? && Box(n.inbox, s)[0].tag == t
    ensures Torn(Apply(n, Process(s, cb)), t) && AtConsumer(Apply(n, Process(s, cb)), t)
    ensures AtProducer(Apply(n, Process(s, cb)), t) <==> AtProducer(n, t)
  {
    hide Inv, Handle, Mail, Tally, Wired, CancelWaits;
    CountsAfter(n, s, cb, t);
    ReactRoutes(n, s, cb);
    HeadFacts(n, s, t);
    var c, out := n.links[t].consumer, React(n, s, cb).out;
    BoxAfter(n, s, cb, c);
    assert SameDownstream(n.stages[s], React(n, s, cb).stage, t);
    if CancelWaits(Box(n.inbox, c), t) {
      WaitsTail(Box(n.inbox, c), t);
      forall cmd | cmd in Mail(out, c) ensures !Confirming(cmd, t) { MailMember(out, c, cmd); }
      WaitsAppend(Box(n.inbox, c)[1..], Mail(out, c), t);
    }
  }

  /** What handling a cancel does to the records and channels of its subscription. */
  lemma CancelAfter(n: Network, s: StageId, cb: Callback, t: Tag)
    requires Inv(n) && Enabled(n, Process(s, cb)) && Box(n.inbox, s)[0] == Cancel(t) && t in n.links
    ensures var n', p, c := Apply(n, Process(s, cb)), n.links[t].producer, n.links[t].consumer;
            var atP := s == p && AtProducer(n, t);
            var atC := s == c && AtConsumer(n, t) && !atP;
            && (AtProducer(n', t) <==> AtProducer(n, t) && !atP)
            && (AtConsumer(n', t) <==> AtConsumer(n, t) && !atC)
            && Box(n'.inbox, p) == (if s == p then Box(n.inbox, p)[1..] else Box(n.inbox, p))
                                   + (if atC || (atP && c == p) then [Cancel(t)] else [])
            && Box(n'.inbox, c) == (if s == c then Box(n.inbox, c)[1..] else Box(n.inbox, c))
                                   + (if atP || (atC && c == p) then [Cancel(t)] else [])
  {
    hide Inv, Tally, Wired, DropDownstream;
    var st, p, c := n.stages[s], n.links[t].producer, n.links[t].consumer;
    HeadFacts(n, s, t);
    DropsDownstream(st, t);
    BoxAfter(n, s, cb, p);
    BoxAfter(n, s, cb, c);
    var out := React(n, s, cb).out;
    assert out != [] ==> |out| == 1 && out[1..] == [];
  }

  lemma DropsDownstream(st: Stage, t: Tag)
    ensures var st' := DropDownstream(st, t);
            st'.upstreams == st.upstreams && st'.downstreams == st.downstreams - {t}
  {
  }

  lemma RequestHandled(n: Network, t: Tag)
    requires Inv(n) && t in n.links && AtProducer(n, t)
    ensures Requests(n, t) == 0
  {
    hide Located, Solvent, Tally;
    assert Phased(n, t);
  }

  lemma CancelKeepsTorn(n: Network, s: StageId, cb: Callback, t: Tag)
    requires Inv(n) && Torn(n, t) && Enabled(n, Process(s, cb)) && Box(n.inbox, s)[0] == Cancel(t) && t in n.links
    ensures Torn(Apply(n, Process(s, cb)), t)
  {
    hide Inv, React, Apply, CancelWaits, Mail, Requests, AtProducer, AtConsumer, Box;
    var n', p, c := Apply(n, Process(s, cb)), n.links[t].producer, n.links[t].consumer;
    CountsAfter(n, s, cb, t);
    if AtProducer(n, t) { RequestHandled(n, t); }
    CancelAfter(n, s, cb, t);
    var rest := if s == c then Box(n.inbox, c)[1..] else Box(n.inbox, c);
    if s == p && AtProducer(n, t) {
      WaitsLast(rest, t);
    } else if ProducerDone(n, t) && !ConsumerDone(n, t) && !(s == c && AtConsumer(n, t)) {
      if s == c { WaitsTail(Box(n.inbox, c), t); }
      assert rest + [] == rest;
    }
  }

  lemma ProcessKeepsTorn(n: Network, s: StageId, cb: Callback, t: Tag)
    requires Inv(n) && Torn(n, t) && Enabled(n, Process(s, cb)) && t in n.links
    ensures Torn(Apply(n, Process(s, cb)), t)
  {
    hide Inv, React, Tally, Apply, Torn;
    var cmd := Box(n.inbox, s)[0];
    if !About(cmd, t) {
      OtherKeepsTorn(n, s, cb, t);
    } else if cmd.Subscribe? {
      SubscribeKeepsTorn(n, s, cb, t);
    } else if cmd.Confirmed? {
      ConfirmedKeepsTorn(n, s, cb, t);
    } else {
      CancelKeepsTorn(n, s, cb, t);
    }
  }

  /** A client's command other than the first request changes no count and no record. */
  lemma PostKeepsTorn(n: Network, n': Network, o: Out, t: Tag)
    requires Posting(n, n', o) && t in n.links && Torn(n, t) && !o.cmd.Confirmed? && Weight(o.cmd, Subs, t) == 0
    ensures Torn(n', t)
    ensures (ProducerDone(n', t) <==> ProducerDone(n, t)) && (ConsumerDone(n', t) <==> ConsumerDone(n, t))
  {
    hide Tally, CancelWaits;
    var p, c := n.links[t].producer, n.links[t].consumer;
    PostBox(n.inbox, o, p, Subs, t);
    PostBox(n.inbox, o, c, Confs, t);
    if CancelWaits(Box(n.inbox, c), t) {
      WaitsAppend(Box(n.inbox, c), if c == o.to then [o.cmd] else [], t);
    }
  }

  lemma NewIsWhole(n: Network, tag: Tag, link: Link, opts: SubscribeOpts)
    requires Inv(n) && Enabled(n, ClientSubscribe(tag, link, opts))
    ensures var n' := Apply(n, ClientSubscribe(tag, link, opts));
            Torn(n', tag) && !ProducerDone(n', tag) && !ConsumerDone(n', tag)
  {
    hide Tally, Wired, Phased, Solvent, CancelWaits;
    var o := Out(link.producer, Subscribe(tag, link.consumer, opts));
    assert StagePlaced(n, link.consumer) && MailPlaced(n, link.producer) && MailPlaced(n, link.consumer);
    UnusedTag(n, Box(n.inbox, link.producer), link.producer, Subs, tag);
    UnusedTag(n, Box(n.inbox, link.consumer), link.consumer, Confs, tag);
    PostBox(n.inbox, o, link.producer, Subs, tag);
    PostBox(n.inbox, o, link.consumer, Confs, tag);
  }

  lemma SpawnKeepsTorn(n: Network, id: StageId, kind: StageType, d: Dispatcher, t: Tag)
    requires Inv(n) && Enabled(n, Spawn(id, kind, d)) && t in n.links && Torn(n, t)
    ensures var n' := Apply(n, Spawn(id, kind, d));
            && Torn(n', t)
            && (ProducerDone(n', t) <==> ProducerDone(n, t)) && (ConsumerDone(n', t) <==> ConsumerDone(n, t))
  {
    hide Tally, Wired, Phased, Solvent, CancelWaits;
  }

  /** The step handles a cancel at the producer's end, with the subscription on record. */
  ghost predicate CancelsAtProducer(n: Network, a: Action, t: Tag)
  {
    && a.Process? && Enabled(n, a) && Box(n.inbox, a.at)[0] == Cancel(t)
    && t in n.links && a.at == n.links[t].producer && AtProducer(n, t)
  }

  /** The same at the consumer's end; a stage subscribed to itself lets go of the
      producer's record first. */
  ghost predicate CancelsAtConsumer(n: Network, a: Action, t: Tag)
  {
    && a.Process? && Enabled(n, a) && Box(n.inbox, a.at)[0] == Cancel(t)
    && t in n.links && a.at == n.links[t].consumer && AtConsumer(n, t) && !CancelsAtProducer(n, a, t)
  }

  lemma ProcessDoneIff(n: Network, s: StageId, cb: Callback, t: Tag)
    requires Inv(n) && Torn(n, t) && Enabled(n, Process(s, cb)) && t in n.links
    ensures var a := Process(s, cb); var n' := Apply(n, a);
            && (ProducerDone(n', t) <==> ProducerDone(n, t) || CancelsAtProducer(n, a, t))
            && (ConsumerDone(n', t) <==> ConsumerDone(n, t) || CancelsAtConsumer(n, a, t))
  {
    hide Inv, React, Tally, Apply, CancelWaits;
    var cmd := Box(n.inbox, s)[0];
    CountsAfter(n, s, cb, t);
    HeadFacts(n, s, t);
    if !About(cmd, t) {
      RecordsKept(n, s, cb, t);
    } else if cmd.Subscribe? {
      SubscribeKeepsTorn(n, s, cb, t);
    } else if cmd.Confirmed? {
      ConfirmedKeepsTorn(n, s, cb, t);
    } else {
      CancelAfter(n, s, cb, t);
    }
  }

  lemma StepDoneIff(n: Network, a: Action, t: Tag)
    requires Inv(n) && (t in n.links ==> Torn(n, t)) && Enabled(n, a)
    ensures var n' := Apply(n, a);
            && (t in n'.links ==> Torn(n', t))
            && (ProducerDone(n', t) <==> ProducerDone(n, t) || CancelsAtProducer(n, a, t))
            && (ConsumerDone(n', t) <==> ConsumerDone(n, t) || CancelsAtConsumer(n, a, t))
  {
    hide Inv, React, Torn, Requests, Confirms, AtProducer, AtConsumer;
    var n' := Apply(n, a);
    if a.ClientSubscribe? && a.tag == t {
      NewIsWhole(n, a.tag, a.link, a.opts);
    } else if t in n.links {
      match a
      case Process(s, cb) => ProcessKeepsTorn(n, s, cb, t); ProcessDoneIff(n, s, cb, t);
      case ClientSubscribe(tag, link, opts) =>
        PostKeepsTorn(n, n', Out(link.producer, Subscribe(tag, link.consumer, opts)), t);
      case Spawn(id, kind, d) => SpawnKeepsTorn(n, id, kind, d, t);
      case ClientCancel(at, tag) => PostKeepsTorn(n, n', Out(at, Cancel(tag)), t);
      case ClientAsk(at, tag, demand) => PostKeepsTorn(n, n', Out(at, AskDemand(tag, demand)), t);
      case ClientEmit(at) => PostKeepsTorn(n, n', Out(at, Emit), t);
    }
  }

  // ---------------------------------------------------------------------------
  // Runs
  // ---------------------------------------------------------------------------

  /** Some step of the run handled a cancel at the producer's end. */
  ghost predicate CancelledAtProducer(run: seq<Action>, t: Tag)
  {
    exists k :: 0 <= k < |run| && CancelsAtProducer(Exec(run[..k]), run[k], t)
  }

  ghost predicate CancelledAtConsumer(run: seq<Action>, t: Tag)
  {
    exists k :: 0 <= k < |run| && CancelsAtConsumer(Exec(run[..k]), run[k], t)
  }

  lemma CancelledLast(run: seq<Action>, t: Tag)
    requires run != []
    ensures var init, a := run[..|run| - 1], run[|run| - 1];
            && (CancelledAtProducer(run, t) <==> CancelledAtProducer(init, t) || CancelsAtProducer(Exec(init), a, t))
            && (CancelledAtConsumer(run, t) <==> CancelledAtConsumer(init, t) || CancelsAtConsumer(Exec(init), a, t))
  {
    hide CancelsAtProducer, CancelsAtConsumer, Exec;
    var init := run[..|run| - 1];
    forall k | 0 <= k < |init| ensures run[..k] == init[..k] && run[k] == init[k] {}
    assert run[..|init|] == init;
    if CancelledAtProducer(init, t) {
      var k :| 0 <= k < |init| && CancelsAtProducer(Exec(init[..k]), init[k], t);
      assert CancelsAtProducer(Exec(run[..k]), run[k], t);
    }
    if CancelledAtConsumer(init, t) {
      var k :| 0 <= k < |init| && CancelsAtConsumer(Exec(init[..k]), init[k], t);
      assert CancelsAtConsumer(Exec(run[..k]), run[k], t);
    }
  }

  /** In every run an end has let go of a subscription if and only if some step handled a
      cancel there with the subscription on record; and once one end has, the other has
      too or has a cancel waiting behind any confirmation. */
  lemma {:induction false} CancelReachesBothEnds(run: seq<Action>, t: Tag)
    ensures var n := Exec(run);
            && (t in n.links ==> Torn(n, t))
            && (ProducerDone(n, t) <==> CancelledAtProducer(run, t))
            && (ConsumerDone(n, t) <==> CancelledAtConsumer(run, t))
    decreases |run|
  {
    hide Torn, Apply, Inv, CancelsAtProducer, CancelsAtConsumer;
    if run != [] {
      hide ProducerDone, ConsumerDone, CancelledAtProducer, CancelledAtConsumer;
      var init, a := run[..|run| - 1], run[|run| - 1];
      CancelReachesBothEnds(init, t);
      InvAlways(init);
      CancelledLast(run, t);
      var n := Exec(init);
      if Enabled(n, a) { StepDoneIff(n, a, t); } else { NotEnabled(n, a, t); }
    }
  }

  lemma NotEnabled(n: Network, a: Action, t: Tag)
    requires !Enabled(n, a)
    ensures !CancelsAtProducer(n, a, t) && !CancelsAtConsumer(n, a, t)
  {
  }

  /** When nothing about a subscription is in transit, both ends have it or neither does. */
  lemma BothEndsOrNeither(run: seq<Action>, t: Tag)
    requires var n := Exec(run); t in n.links && Requests(n, t) == Confirms(n, t) == 0
    requires var n := Exec(run); forall s :: Cancel(t) !in Box(n.inbox, s)
    ensures AtProducer(Exec(run), t) <==> AtConsumer(Exec(run), t)
  {
    hide Exec, Requests, Confirms, AtProducer, AtConsumer;
    CancelReachesBothEnds(run, t);
  }

  /** An end that has let go sends nothing more on the subscription: the producer no
      events, the consumer no asks. */
  lemma DoneSendsNothing(run: seq<Action>, s: StageId, cb: Callback, t: Tag)
    requires Enabled(Exec(run), Process(s, cb))
    ensures var n := Exec(run); var out := React(n, s, cb).out;
            && (ProducerDone(n, t) && s == n.links[t].producer ==>
                  forall o :: o in out ==> !(o.cmd.Events? && o.cmd.tag == t))
            && (ConsumerDone(n, t) && s == n.links[t].consumer ==>
                  forall o :: o in out ==> !(o.cmd.AskDemand? && o.cmd.tag == t))
  {
    hide Exec, Inv, React, Tally, Wired, Rewired;
    InvAlways(run);
    var n := Exec(run);
    ReactRoutes(n, s, cb);
    HeadFacts(n, s, t);
  }

  /** Handling a cancel ends the subscription at that end if and only if the request was
      handled and, at the consumer, the confirmation too. */
  lemma CancelTakesIff(run: seq<Action>, s: StageId, cb: Callback, t: Tag)
    requires var n := Exec(run);
             && Enabled(n, Process(s, cb)) && Box(n.inbox, s)[0] == Cancel(t)
             && t in n.links && n.links[t].producer != n.links[t].consumer
    ensures var n, n' := Exec(run), Apply(Exec(run), Process(s, cb));
            && (s == n.links[t].producer ==> (ProducerDone(n', t) <==> Requests(n, t) == 0))
            && (s == n.links[t].consumer ==> (ConsumerDone(n', t) <==> Requests(n, t) == 0 && Confirms(n, t) == 0))
  {
    hide Exec, Inv, React, Tally, Apply, CancelWaits, Mail;
    InvAlways(run);
    CancelReachesBothEnds(run, t);
    var n := Exec(run);
    ProcessDoneIff(n, s, cb, t);
    HeadFacts(n, s, t);
  }

  // ---------------------------------------------------------------------------
  // Cancelling after the request was handled
  // ---------------------------------------------------------------------------

  /** No confirmation of `t` comes after a cancel of it. */
  ghost predicate NoneBehind(box: seq<Command>, t: Tag)
  {
    forall i, j :: 0 <= i < j < |box| && box[i] == Cancel(t) ==> !Confirming(box[j], t)
  }

  /** No cancel of `t` overtook its request or its confirmation. */
  ghost predicate Orderly(n: Network, t: Tag)
  {
    var p, c := Box(n.inbox, Ends(n, t).producer), Box(n.inbox, Ends(n, t).consumer);
    (Requests(n, t) > 0 ==> Cancel(t) !in p && Cancel(t) !in c) && NoneBehind(c, t)
  }

  lemma NoneBehindAfter(box: seq<Command>, more: seq<Command>, t: Tag)
    requires NoneBehind(box, t)
    requires Cancel(t) !in box || forall cmd :: cmd in more ==> !Confirming(cmd, t)
    requires |more| <= 1 || forall cmd :: cmd in more ==> !Confirming(cmd, t)
    ensures NoneBehind(box + more, t)
  {
    var all := box + more;
    forall i, j | 0 <= i < j < |all| && all[i] == Cancel(t) ensures !Confirming(all[j], t) {
      if j >= |box| { assert all[j] in more; }
      if i < |box| { assert all[i] in box; }
    }
  }

  /** Only a stage that handles a cancel sends one, and only with the subscription on
      record; only one that handles the request sends a confirmation. */
  lemma MailAbout(n: Network, s: StageId, cb: Callback, t: Tag, x: StageId)
    requires Inv(n) && Enabled(n, Process(s, cb)) && t in n.links
    ensures var cmd, mail := Box(n.inbox, s)[0], Mail(React(n, s, cb).out, x);
            && (Cancel(t) in mail ==> cmd == Cancel(t) && (s == n.links[t].producer || s == n.links[t].consumer))
            && (forall m :: m in mail && Confirming(m, t) ==> cmd.Subscribe? && cmd.tag == t && mail == [m])
  {
    hide Inv, Mail, Tally, Wired, Rewired, DispatchAndDeliver, DrainBuffer, HandleAsk, HandleEvents, HandleEmit;
    ReactRoutes(n, s, cb);
    HeadFacts(n, s, t);
    var cmd, out := Box(n.inbox, s)[0], React(n, s, cb).out;
    var mail := Mail(out, x);
    if Cancel(t) in mail { MailMember(out, x, Cancel(t)); }
    forall m | m in mail && Confirming(m, t) ensures cmd.Subscribe? && cmd.tag == t && mail == [m] {
      MailMember(out, x, m);
      OneMail(out, x);
    }
  }

  lemma OneMail(out: seq<Out>, x: StageId)
    ensures |out| == 1 ==> Mail(out, x) == if out[0].to == x then [out[0].cmd] else []
  {
    if |out| == 1 { assert out[1..] == []; }
  }

  lemma ProcessKeepsOrderly(n: Network, s: StageId, cb: Callback, t: Tag)
    requires Inv(n) && Enabled(n, Process(s, cb)) && t in n.links && Orderly(n, t)
    ensures Orderly(Apply(n, Process(s, cb)), t)
  {
    hide Inv, React, Mail, Tally, Apply;
    var n', p, c := Apply(n, Process(s, cb)), n.links[t].producer, n.links[t].consumer;
    var cmd, out := Box(n.inbox, s)[0], React(n, s, cb).out;
    CountsAfter(n, s, cb, t);
    HeadFacts(n, s, t);
    BoxAfter(n, s, cb, p);
    BoxAfter(n, s, cb, c);
    MailAbout(n, s, cb, t, p);
    MailAbout(n, s, cb, t, c);
    var rest := if s == c then Box(n.inbox, c)[1..] else Box(n.inbox, c);
    assert NoneBehind(rest, t);
    NoneBehindAfter(rest, Mail(out, c), t);
  }

  lemma PostKeepsOrderly(n: Network, n': Network, o: Out, t: Tag)
    requires Posting(n, n', o) && t in n.links && Orderly(n, t)
    requires !o.cmd.Confirmed? && Weight(o.cmd, Subs, t) == 0 && (o.cmd == Cancel(t) ==> Requests(n, t) == 0)
    ensures Orderly(n', t)
  {
    hide Tally;
    var p, c := n.links[t].producer, n.links[t].consumer;
    PostBox(n.inbox, o, p, Subs, t);
    PostBox(n.inbox, o, c, Subs, t);
    NoneBehindAfter(Box(n.inbox, c), if c == o.to then [o.cmd] else [], t);
  }

  lemma NewIsOrderly(n: Network, tag: Tag, link: Link, opts: SubscribeOpts)
    requires Inv(n) && Enabled(n, ClientSubscribe(tag, link, opts))
    ensures Orderly(Apply(n, ClientSubscribe(tag, link, opts)), tag)
  {
    hide Tally, StagePlaced, Phased, Solvent;
    var o := Out(link.producer, Subscribe(tag, link.consumer, opts));
    NeverCancelled(n, link.producer, tag);
    NeverCancelled(n, link.consumer, tag);
    PostBox(n.inbox, o, link.producer, Subs, tag);
    PostBox(n.inbox, o, link.consumer, Subs, tag);
  }

  /** Nothing in a channel cancels a tag that was never handed out. */
  lemma NeverCancelled(n: Network, s: StageId, t: Tag)
    requires Inv(n) && t !in n.links
    ensures Cancel(t) !in Box(n.inbox, s)
  {
    hide StagePlaced, Phased, Solvent, Box;
    assert MailPlaced(n, s);
    assert !Placed(n, s, Cancel(t));
  }

  /** Nobody cancels `t` before its request was handled, that is before `subscribe` returns. */
  ghost predicate PatientRun(run: seq<Action>, t: Tag)
  {
    forall k :: 0 <= k < |run| && run[k].ClientCancel? && run[k].tag == t ==> Requests(Exec(run[..k]), t) == 0
  }

  lemma StepKeepsOrderly(n: Network, a: Action, t: Tag)
    requires Inv(n) && Enabled(n, a) && (t in n.links ==> Orderly(n, t))
    requires a.ClientCancel? && a.tag == t ==> Requests(n, t) == 0
    ensures t in Apply(n, a).links ==> Orderly(Apply(n, a), t)
  {
    hide Inv, React, Orderly, Requests;
    var n' := Apply(n, a);
    if a.ClientSubscribe? && a.tag == t {
      NewIsOrderly(n, a.tag, a.link, a.opts);
    } else if t in n.links {
      match a
      case Process(s, cb) => ProcessKeepsOrderly(n, s, cb, t);
      case ClientSubscribe(tag, link, opts) =>
        PostKeepsOrderly(n, n', Out(link.producer, Subscribe(tag, link.consumer, opts)), t);
      case Spawn(id, kind, d) => SameOrderly(n, n', t);
      case ClientCancel(at, tag) => PostKeepsOrderly(n, n', Out(at, Cancel(tag)), t);
      case ClientAsk(at, tag, demand) => PostKeepsOrderly(n, n', Out(at, AskDemand(tag, demand)), t);
      case ClientEmit(at) => PostKeepsOrderly(n, n', Out(at, Emit), t);
    }
  }

  lemma SameOrderly(n: Network, n': Network, t: Tag)
    requires Orderly(n, t) && n'.inbox == n.inbox && n'.links == n.links
    ensures Orderly(n', t)
  {
  }

  lemma {:induction false} OrderlyAlways(run: seq<Action>, t: Tag)
    requires PatientRun(run, t)
    ensures t in Exec(run).links ==> Orderly(Exec(run), t)
    decreases |run|
  {
    hide Orderly, Apply, Inv, Requests;
    if run != [] {
      var init, a := run[..|run| - 1], run[|run| - 1];
      assert PatientRun(init, t) by {
        forall k | 0 <= k < |init| ensures run[..k] == init[..k] && run[k] == init[k] {}
      }
      OrderlyAlways(init, t);
      InvAlways(init);
      if Enabled(Exec(init), a) { StepKeepsOrderly(Exec(init), a, t); }
    }
  }

  /** In a run where nobody cancels a subscription before `subscribe` returned, no cancel is
      lost: whichever end handles it lets go of the subscription. */
  lemma NoCancelIsLost(run: seq<Action>, s: StageId, cb: Callback, t: Tag)
    requires PatientRun(run, t)
    requires var n := Exec(run);
             && Enabled(n, Process(s, cb)) && Box(n.inbox, s)[0] == Cancel(t)
             && t in n.links && n.links[t].producer != n.links[t].consumer
    ensures var n, n' := Exec(run), Apply(Exec(run), Process(s, cb));
            (s == n.links[t].producer ==> ProducerDone(n', t)) && (s == n.links[t].consumer ==> ConsumerDone(n', t))
  {
    hide Exec, PatientRun, ProducerDone, ConsumerDone, Apply;
    OrderlyAlways(run, t);
    CancelTakesIff(run, s, cb, t);
    var n := Exec(run);
    if s == n.links[t].producer || s == n.links[t].consumer { NothingOvertaken(n, s, t); }
  }

  lemma NothingOvertaken(n: Network, s: StageId, t: Tag)
    requires t in n.links && Orderly(n, t) && Box(n.inbox, s) != [] && Box(n.inbox, s)[0] == Cancel(t)
    requires s == n.links[t].producer || s == n.links[t].consumer
    ensures Requests(n, t) == 0 && (s == n.links[t].consumer ==> Confirms(n, t) == 0)
  {
    assert Box(n.inbox, s)[0] in Box(n.inbox, s);
    if s == n.links[t].consumer && Confirms(n, t) > 0 {
      var k := ConfirmAt(Box(n.inbox, s), t);
    }
  }

  /** A cancel that comes before the confirmation is lost: a run in which it was handled,
      and the subscription is active at both ends with no cancel in transit. */
  lemma EarlyCancelIsLost() returns (run: seq<Action>)
    ensures var n := Exec(run);
            && 7 in n.links && n.links[7] == Link(0, 1) && 7 in n.cancelled
            && AtProducer(n, 7) && AtConsumer(n, 7)
            && Cancel(7) !in Box(n.inbox, 0) && Cancel(7) !in Box(n.inbox, 1)
  {
    hide React, Apply;
    run := CancelledTooSoon();
    var opts := StageStall.Opts(1);
    StageStall.SourceSubscribed(Exec(run), 1);
    StageStall.Reacts(Exec(run), 0, StageStall.IDLE, Step(StageStall.Source(), [Out(1, Confirmed(7, 0, opts))]));
    StageStall.ExecSnoc(run, Process(0, StageStall.IDLE));
    run := run + [Process(0, StageStall.IDLE)];
    var st := ConfirmedAfterAll(Exec(run));
    StageStall.Reacts(Exec(run), 1, StageStall.IDLE, Step(st, [Out(0, AskDemand(7, 1))]));
    StageStall.ExecSnoc(run, Process(1, StageStall.IDLE));
    run := run + [Process(1, StageStall.IDLE)];
  }

  /** Two unconnected stages. */
  ghost predicate Apart(n: Network)
  {
    && 0 in n.stages && n.stages[0] == Stage(0, Producer, DemandDispatcher, map[], map[], [], [])
    && 1 in n.stages && n.stages[1] == Stage(1, ProducerConsumer, DemandDispatcher, map[], map[], [], [])
  }

  /** The consumer has handled the cancel while the request is still waiting. */
  lemma CancelledTooSoon() returns (run: seq<Action>)
    ensures var n := Exec(run);
            && Apart(n) && 7 in n.links && n.links[7] == Link(0, 1) && 7 in n.cancelled
            && Box(n.inbox, 0) == [Subscribe(7, 1, StageStall.Opts(1))] && Box(n.inbox, 1) == []
  {
    hide React, Apply;
    run := StageStall.Spawned();
    var opts := StageStall.Opts(1);
    var a := ClientSubscribe(7, Link(0, 1), opts);
    StageStall.ExecSnoc(run, a);
    StageStall.Posts(Exec(run), a, Out(0, Subscribe(7, 1, opts)));
    run := run + [a];
    StageStall.ExecSnoc(run, ClientCancel(1, 7));
    PostsCancel(Exec(run), 1, 7);
    run := run + [ClientCancel(1, 7)];
    NothingToCancel(Exec(run));
    StageStall.Reacts(Exec(run), 1, StageStall.IDLE, Step(Exec(run).stages[1], []));
    StageStall.ExecSnoc(run, Process(1, StageStall.IDLE));
    run := run + [Process(1, StageStall.IDLE)];
  }

  lemma PostsCancel(n: Network, at: StageId, t: Tag)
    requires Enabled(n, ClientCancel(at, t))
    ensures var n' := Apply(n, ClientCancel(at, t));
            && n'.stages == n.stages && n'.links == n.links && n'.cancelled == n.cancelled + {t}
            && forall x :: Box(n'.inbox, x) == Box(n.inbox, x) + if x == at then [Cancel(t)] else []
  {
  }

  lemma NothingToCancel(n: Network)
    requires 1 in n.stages && n.stages[1] == Stage(1, ProducerConsumer, DemandDispatcher, map[], map[], [], [])
    requires Box(n.inbox, 1) == [Cancel(7)]
    ensures React(n, 1, StageStall.IDLE) == Step(n.stages[1], [])
  {
  }

  lemma ConfirmedAfterAll(n: Network) returns (st: Stage)
    requires 1 in n.stages && n.stages[1] == Stage(1, ProducerConsumer, DemandDispatcher, map[], map[], [], [])
    requires Box(n.inbox, 1) == [Confirmed(7, 0, StageStall.Opts(1))]
    ensures React(n, 1, StageStall.IDLE) == Step(st, [Out(0, AskDemand(7, 1))]) && 7 in st.upstreams
  {
    st := React(n, 1, StageStall.IDLE).stage;
  }
}

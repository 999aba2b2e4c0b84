/** Credit, window and progress in every reachable state of a stage network. */
module StageRuns {
  import opened Values
  import opened StageDispatch
  import opened StageLoop
  import opened StageNetwork
  import opened StageCredit

  // ---------------------------------------------------------------------------
  // Where a handler sends its commands
  // ---------------------------------------------------------------------------

  /** Why the handler of `cmd` may send `o`. */
  ghost predicate Justified(st: Stage, cmd: Command, o: Out)
  {
    match o.cmd
    case Subscribe(_, _, _) => false
    case Confirmed(t, p, opts) => cmd == Subscribe(t, o.to, opts) && p == st.id
    case Cancel(t) => cmd == Cancel(t)
    case AskDemand(t, _) =>
      (t in st.upstreams && o.to == st.upstreams[t].producer && !(cmd.Confirmed? && cmd.tag == t)) ||
      (cmd.Confirmed? && cmd.tag == t && cmd.producer == o.to)
    case Events(t, _) => t in st.downstreams && o.to == st.downstreams[t]
    case Emit => false
  }

  ghost predicate SameUpstream(st: Stage, st': Stage, t: Tag)
  {
    && (t in st.upstreams <==> t in st'.upstreams)
    && (t in st.upstreams ==> st'.upstreams[t].producer == st.upstreams[t].producer)
  }

  ghost predicate SameDownstream(st: Stage, st': Stage, t: Tag)
  {
    && (t in st.downstreams <==> t in st'.downstreams)
    && (t in st.downstreams ==> st'.downstreams[t] == st.downstreams[t])
  }

  /** Subscriptions only change hands through their own commands. */
  ghost predicate Rewired(st: Stage, cmd: Command, st': Stage)
  {
    && st'.id == st.id && st'.kind == st.kind && st'.dispatcher == st.dispatcher
    && (forall t :: !(cmd.Confirmed? && cmd.tag == t) && !(cmd.Cancel? && cmd.tag == t) ==> SameUpstream(st, st', t))
    && (forall t :: !(cmd.Subscribe? && cmd.tag == t) && !(cmd.Cancel? && cmd.tag == t) ==> SameDownstream(st, st', t))
    && (cmd.Confirmed? ==> cmd.tag in st'.upstreams && st'.upstreams[cmd.tag].producer == cmd.producer)
    && (cmd.Subscribe? ==> cmd.tag in st'.downstreams && st'.downstreams[cmd.tag] == cmd.consumer)
    && (cmd.Cancel? ==> st'.upstreams.Keys <= st.upstreams.Keys && st'.downstreams.Keys <= st.downstreams.Keys)
    && (cmd.Cancel? && cmd.tag in st'.upstreams ==> SameUpstream(st, st', cmd.tag))
    && (cmd.Cancel? && cmd.tag in st'.downstreams ==> SameDownstream(st, st', cmd.tag))
  }

  lemma AskRoutes(st: Stage, tag: Tag, demand: nat, cb: Callback)
    requires Wired(st)
    ensures var r := HandleAsk(st, tag, demand, cb.produced, AlwaysOpen);
            && Rewired(st, AskDemand(tag, demand), r.stage)
            && Wired(r.stage)
            && forall o :: o in r.out ==> Justified(st, AskDemand(tag, demand), o)
  {
    hide DrainBuffer, DispatchAndDeliver, TagsOf, PendingFor, Wired;
    if tag !in st.upstreams {
      var st1 := st.(demands := AddDemand(st.demands, tag, demand));
      AddDemandPending(st.demands, tag, demand, tag);
      SameTagsWired(st, st1);
      var drained := DrainBuffer(st1, AlwaysOpen);
      DispatchShips(st1, [], tag);
      SameTagsWired(st1, drained.stage);
      DispatchShips(drained.stage, cb.produced, tag);
      SameTagsWired(drained.stage, DispatchAndDeliver(drained.stage, cb.produced, AlwaysOpen).stage);
    }
  }

  lemma ReplenishRoutes(st: Stage, tag: Tag, events: seq<Value>)
    ensures var r := Replenish(st, tag, |events|, AlwaysOpen);
            && Rewired(st, Events(tag, events), r.stage)
            && r.stage.demands == st.demands && r.stage.downstreams == st.downstreams
            && forall o :: o in r.out ==> Justified(st, Events(tag, events), o)
  {
    hide Room;
  }

  lemma EventsRoutes(st: Stage, tag: Tag, events: seq<Value>, cb: Callback)
    requires Wired(st)
    ensures var r := HandleEvents(st, tag, events, cb.emitted, AlwaysOpen);
            && Rewired(st, Events(tag, events), r.stage)
            && Wired(r.stage)
            && forall o :: o in r.out ==> Justified(st, Events(tag, events), o)
  {
    hide DispatchAndDeliver, Replenish, TagsOf, PendingFor, Wired;
    var fwd := if st.kind == ProducerConsumer then DispatchAndDeliver(st, cb.emitted, AlwaysOpen) else Step(st, []);
    DispatchShips(st, cb.emitted, tag);
    SameTagsWired(st, fwd.stage);
    ReplenishRoutes(fwd.stage, tag, events);
    var last := Replenish(fwd.stage, tag, |events|, AlwaysOpen);
    SameTagsWired(fwd.stage, last.stage);
    forall t ensures SameUpstream(st, last.stage, t) && SameDownstream(st, last.stage, t) {
      assert SameUpstream(fwd.stage, last.stage, t) && SameDownstream(fwd.stage, last.stage, t);
    }
    forall o | o in last.out ensures Justified(st, Events(tag, events), o) {
      assert Justified(fwd.stage, Events(tag, events), o);
    }
  }

  lemma {:induction false} WithoutTags(subs: seq<ConsumerDemand>, tag: Tag)
    requires DistinctTags(subs)
    ensures DistinctTags(Without(subs, tag))
    ensures forall t :: t in TagsOf(Without(subs, tag)) <==> t in TagsOf(subs) && t != tag
    decreases |subs|
  {
    if subs != [] {
      WithoutTags(subs[1..], tag);
      var rest := Without(subs[1..], tag);
      assert TagsOf(subs) == [subs[0].tag] + TagsOf(subs[1..]);
      if subs[0].tag == tag {
        assert Without(subs, tag) == rest;
        assert tag !in TagsOf(subs[1..]);
      } else {
        assert Without(subs, tag) == [subs[0]] + rest;
        assert TagsOf(Without(subs, tag)) == [subs[0].tag] + TagsOf(rest);
        assert subs[0].tag !in TagsOf(subs[1..]);
        forall i | 0 <= i < |rest| ensures rest[i].tag != subs[0].tag {
          assert TagsOf(rest)[i] in TagsOf(rest);
        }
      }
    }
  }

  lemma DropWired(st: Stage, tag: Tag)
    requires Wired(st)
    ensures Wired(DropDownstream(st, tag))
  {
    WithoutTags(st.demands, tag);
    var st' := DropDownstream(st, tag);
    forall i | 0 <= i < |st'.demands| ensures st'.demands[i].tag in st'.downstreams {
      var x := st'.demands[i].tag;
      assert TagsOf(st'.demands)[i] == x;
      assert x in TagsOf(st.demands);
      var k :| 0 <= k < |TagsOf(st.demands)| && TagsOf(st.demands)[k] == x;
      assert st.demands[k].tag == x;
    }
  }

  lemma SubscribeWired(st: Stage, tag: Tag, consumer: StageId)
    requires Wired(st) && tag !in st.downstreams
    ensures Wired(st.(demands := st.demands + [ConsumerDemand(tag, 0)], downstreams := st.downstreams[tag := consumer]))
  {
    var demands := st.demands + [ConsumerDemand(tag, 0)];
    assert TagsOf(demands) == TagsOf(st.demands) + [tag];
    assert forall i :: 0 <= i < |st.demands| ==> demands[i] == st.demands[i];
  }

  lemma HandleRoutes(st: Stage, cmd: Command, cb: Callback)
    requires Wired(st)
    requires cmd.Subscribe? ==> cmd.tag !in st.downstreams
    ensures var r := Handle(st, cmd, cb, AlwaysOpen);
            && Rewired(st, cmd, r.stage)
            && Wired(r.stage)
            && forall o :: o in r.out ==> Justified(st, cmd, o)
  {
    match cmd
    case Subscribe(tag, consumer, opts) => SubscribeWired(st, tag, consumer);
    case Confirmed(tag, producer, opts) =>
    case Cancel(tag) => DropWired(st, tag);
    case AskDemand(tag, demand) => AskRoutes(st, tag, demand, cb);
    case Events(tag, events) => EventsRoutes(st, tag, events, cb);
    case Emit => EmitRoutes(st, cb);
  }

  lemma EmitRoutes(st: Stage, cb: Callback)
    requires Wired(st)
    ensures var r := Handle(st, Emit, cb, AlwaysOpen);
            && Rewired(st, Emit, r.stage) && Wired(r.stage)
            && forall o :: o in r.out ==> Justified(st, Emit, o)
  {
    DispatchShips(st, cb.emitted, 0);
    SameTagsWired(st, DispatchAndDeliver(st, cb.emitted, AlwaysOpen).stage);
  }

  // ---------------------------------------------------------------------------
  // Reachable networks
  // ---------------------------------------------------------------------------

  ghost predicate Placed(n: Network, s: StageId, cmd: Command)
  {
    match cmd
    case Subscribe(t, c, _) => t in n.links && n.links[t] == Link(s, c)
    case Confirmed(t, p, _) => t in n.links && n.links[t] == Link(p, s)
    case Cancel(t) => t in n.links && t in n.cancelled
    case AskDemand(t, _) => t in n.links && (t in n.asked || n.links[t].producer == s)
    case Events(t, _) => t in n.links && n.links[t].consumer == s
    case Emit => true
  }

  ghost predicate StagePlaced(n: Network, s: StageId)
  {
    var st := At(n, s);
    && st.id == s && Wired(st)
    && (forall t :: t in st.upstreams ==> t in n.links && n.links[t] == Link(st.upstreams[t].producer, s))
    && (forall t :: t in st.downstreams ==> t in n.links && n.links[t] == Link(s, st.downstreams[t]))
  }

  ghost predicate MailPlaced(n: Network, s: StageId)
  {
    forall cmd :: cmd in Box(n.inbox, s) ==> Placed(n, s, cmd)
  }

  /** Stages and commands sit where their subscription says they belong. */
  ghost predicate Located(n: Network)
  {
    && (forall s :: StagePlaced(n, s))
    && (forall s :: MailPlaced(n, s))
    && (forall t :: t in n.links ==> n.links[t].producer in n.stages && n.links[t].consumer in n.stages)
  }

  function Ends(n: Network, t: Tag): Link
  {
    if t in n.links then n.links[t] else Link(0, 0)
  }

  /** A subscription is set up once: requested, then confirmed, then active. */
  ghost predicate Phased(n: Network, t: Tag)
  {
    var p, c := Ends(n, t).producer, Ends(n, t).consumer;
    var requests := Tally(Box(n.inbox, p), Subs, t);
    var confirms := Tally(Box(n.inbox, c), Confs, t);
    && requests + (if t in At(n, p).downstreams then 1 else 0) <= 1
    && (t !in n.cancelled ==>
          && requests + (if t in At(n, p).downstreams then 1 else 0) == 1
          && requests + confirms + (if t in At(n, c).upstreams then 1 else 0) == 1)
  }

  /** Outstanding demand is asks in transit, plus the producer's record, plus events in transit. */
  ghost predicate Credit(n: Network, t: Tag)
  {
    var p, c := Ends(n, t).producer, Ends(n, t).consumer;
    Owed(At(n, c), t) ==
    Tally(Box(n.inbox, p), Asks, t) + PendingFor(At(n, p).demands, t) + Tally(Box(n.inbox, c), Evs, t)
  }

  /** Neither cancelled nor asked for by hand. */
  ghost predicate Undisturbed(n: Network, t: Tag)
  {
    t in n.links && t !in n.cancelled && t !in n.asked
  }

  /** The window of one automatic subscription; for a pure consumer it is always
      fully accounted for and never closed. */
  ghost predicate WindowOk(st: Stage, t: Tag)
  {
    t in st.upstreams && st.upstreams[t].mode == Automatic ==>
      var up := st.upstreams[t];
      && up.minDemand <= up.maxDemand && up.maxDemand >= 1
      && up.outstanding <= up.maxDemand
      && (st.kind == Consumer ==>
            && up.outstanding + up.pendingEvents == up.maxDemand
            && up.outstanding > 0
            && (up.pendingEvents == 0 || up.pendingEvents < up.minDemand))
  }

  ghost predicate Solvent(n: Network, t: Tag)
  {
    Undisturbed(n, t) ==> Credit(n, t) && WindowOk(At(n, Ends(n, t).consumer), t)
  }

  ghost predicate Inv(n: Network)
  {
    && Located(n)
    && (forall t :: t in n.links ==> Phased(n, t))
    && (forall t :: Solvent(n, t))
  }

  lemma {:induction false} PendingAbsent(subs: seq<ConsumerDemand>, t: Tag)
    requires t !in TagsOf(subs)
    ensures PendingFor(subs, t) == 0
    decreases |subs|
  {
    if subs != [] {
      assert TagsOf(subs) == [subs[0].tag] + TagsOf(subs[1..]);
      PendingAbsent(subs[1..], t);
    }
  }

  lemma NotDownstreamNoPending(st: Stage, t: Tag)
    requires Wired(st) && t !in st.downstreams
    ensures t !in TagsOf(st.demands) && PendingFor(st.demands, t) == 0
  {
    PendingAbsent(st.demands, t);
  }

  /** A channel after a step: the head is gone and the new mail is at the back. */
  lemma BoxAfter(n: Network, s: StageId, cb: Callback, x: StageId)
    requires Enabled(n, Process(s, cb))
    ensures Box(Apply(n, Process(s, cb)).inbox, x) ==
            (if x == s then Box(n.inbox, s)[1..] else Box(n.inbox, x)) + Mail(React(n, s, cb).out, x)
  {
    SendAllBox(n.inbox[s := Box(n.inbox, s)[1..]], React(n, s, cb).out, x);
  }

  lemma TallyAfter(n: Network, s: StageId, cb: Callback, x: StageId, k: Kind, t: Tag)
    requires Enabled(n, Process(s, cb))
    ensures Tally(Box(Apply(n, Process(s, cb)).inbox, x), k, t) ==
            Tally(Box(n.inbox, x), k, t) - (if x == s then Weight(Box(n.inbox, s)[0], k, t) else 0)
            + Tally(Mail(React(n, s, cb).out, x), k, t)
  {
    BoxAfter(n, s, cb, x);
    TallyAppend(if x == s then Box(n.inbox, s)[1..] else Box(n.inbox, x), Mail(React(n, s, cb).out, x), k, t);
  }

  /** What the invariant says about a stage, its next command and one tag. */
  lemma HeadFacts(n: Network, s: StageId, t: Tag)
    requires Inv(n) && s in n.stages && Box(n.inbox, s) != []
    ensures var cmd, st := Box(n.inbox, s)[0], n.stages[s];
            && Placed(n, s, cmd)
            && st.id == s && Wired(st)
            && (t in st.upstreams ==> t in n.links && n.links[t] == Link(st.upstreams[t].producer, s))
            && (t in st.downstreams ==> t in n.links && n.links[t] == Link(s, st.downstreams[t]))
            && (t in n.links ==> Phased(n, t) && n.links[t].producer in n.stages && n.links[t].consumer in n.stages)
            && Solvent(n, t)
            && Weight(cmd, Asks, t) <= Tally(Box(n.inbox, s), Asks, t)
            && Weight(cmd, Evs, t) <= Tally(Box(n.inbox, s), Evs, t)
            && Weight(cmd, Subs, t) <= Tally(Box(n.inbox, s), Subs, t)
            && Weight(cmd, Confs, t) <= Tally(Box(n.inbox, s), Confs, t)
  {
    hide Tally, Phased, Solvent, Wired, Weight;
    var cmd := Box(n.inbox, s)[0];
    assert cmd in Box(n.inbox, s);
    assert MailPlaced(n, s) && StagePlaced(n, s);
    TallyMember(Box(n.inbox, s), Asks, t, cmd);
    TallyMember(Box(n.inbox, s), Evs, t, cmd);
    TallyMember(Box(n.inbox, s), Subs, t, cmd);
    TallyMember(Box(n.inbox, s), Confs, t, cmd);
  }

  /** A request still in the channel finds no downstream yet, so the handler's
      routing facts apply. */
  lemma ReactRoutes(n: Network, s: StageId, cb: Callback)
    requires Inv(n) && Enabled(n, Process(s, cb))
    ensures var cmd, r := Box(n.inbox, s)[0], React(n, s, cb);
            && (cmd.Subscribe? ==> cmd.tag !in n.stages[s].downstreams)
            && Placed(n, s, cmd) && Wired(n.stages[s])
            && Rewired(n.stages[s], cmd, r.stage)
            && Wired(r.stage)
            && forall o :: o in r.out ==> Justified(n.stages[s], cmd, o)
  {
    hide Tally, Wired, Handle, Rewired, Justified, Inv;
    var cmd := Box(n.inbox, s)[0];
    HeadFacts(n, s, if cmd.Subscribe? then cmd.tag else 0);
    HandleRoutes(n.stages[s], cmd, cb);
  }

  lemma StagePlacedStep(n: Network, s: StageId, cmd: Command, st': Stage, n': Network)
    requires StagePlaced(n, s) && Placed(n, s, cmd)
    requires Rewired(At(n, s), cmd, st') && Wired(st')
    requires n'.links == n.links && s in n'.stages && n'.stages[s] == st'
    ensures StagePlaced(n', s)
  {
    hide Wired;
    var st := At(n, s);
    forall t | t in st'.upstreams ensures t in n.links && n.links[t] == Link(st'.upstreams[t].producer, s) {
      if !(cmd.Confirmed? && cmd.tag == t) { assert SameUpstream(st, st', t); }
    }
    forall t | t in st'.downstreams ensures t in n.links && n.links[t] == Link(s, st'.downstreams[t]) {
      if !(cmd.Subscribe? && cmd.tag == t) { assert SameDownstream(st, st', t); }
    }
  }

  /** A justified command is placed correctly at its destination. */
  lemma JustifiedPlaced(n: Network, s: StageId, cmd: Command, o: Out)
    requires StagePlaced(n, s) && Placed(n, s, cmd) && Justified(At(n, s), cmd, o)
    ensures Placed(n, o.to, o.cmd)
  {
    hide Wired;
  }

  lemma LocatedStep(n: Network, s: StageId, cb: Callback)
    requires Inv(n) && Enabled(n, Process(s, cb))
    ensures Located(Apply(n, Process(s, cb)))
  {
    hide Wired, Handle, Mail, Rewired, Justified, Phased, Solvent;
    var n' := Apply(n, Process(s, cb));
    var cmd, r := Box(n.inbox, s)[0], React(n, s, cb);
    ReactRoutes(n, s, cb);
    StagePlacedStep(n, s, cmd, r.stage, n');
    forall x ensures StagePlaced(n', x) {
      if x != s { assert StagePlaced(n, x); }
    }
    forall x ensures MailPlaced(n', x) {
      assert MailPlaced(n, x);
      BoxAfter(n, s, cb, x);
      forall c | c in Box(n'.inbox, x) ensures Placed(n', x, c) {
        if c in Mail(r.out, x) {
          MailMember(r.out, x, c);
          JustifiedPlaced(n, s, cmd, Out(x, c));
        } else {
          assert c in Box(n.inbox, x);
        }
      }
    }
  }

  /** Mail that counts for `t` goes to the end of the subscription it belongs to. */
  lemma MailAddressed(n: Network, s: StageId, cb: Callback, t: Tag, x: StageId)
    requires Inv(n) && Enabled(n, Process(s, cb)) && t in n.links
    ensures var out := React(n, s, cb).out;
            && (t !in n.asked ==>
                  Tally(Mail(out, x), Asks, t) == (if x == n.links[t].producer then Sent(out, Asks, t) else 0))
            && Tally(Mail(out, x), Evs, t) == (if x == n.links[t].consumer then Sent(out, Evs, t) else 0)
            && Tally(Mail(out, x), Subs, t) == 0
            && Tally(Mail(out, x), Confs, t) == (if x == n.links[t].consumer then Sent(out, Confs, t) else 0)
  {
    hide Handle, Mail, Tally, Sent, Wired, Phased, Solvent, Rewired;
    var cmd, r := Box(n.inbox, s)[0], React(n, s, cb);
    ReactRoutes(n, s, cb);
    assert StagePlaced(n, s);
    forall o | o in r.out ensures Placed(n, o.to, o.cmd) && !o.cmd.Subscribe? {
      JustifiedPlaced(n, s, cmd, o);
    }
    if t !in n.asked { MailTally(r.out, n.links[t].producer, x, Asks, t); }
    MailTally(r.out, n.links[t].consumer, x, Evs, t);
    MailTally(r.out, x, x, Subs, t);
    NothingSent(r.out, Subs, t);
    MailTally(r.out, n.links[t].consumer, x, Confs, t);
  }

  lemma {:induction false} NothingSent(out: seq<Out>, k: Kind, t: Tag)
    requires forall o :: o in out ==> Weight(o.cmd, k, t) == 0
    ensures Sent(out, k, t) == 0
    decreases |out|
  {
    if out != [] {
      assert out[0] in out;
      NothingSent(out[1..], k, t);
    }
  }

  /** A confirmation is sent exactly when the request is handled. */
  lemma ConfirmsSent(st: Stage, cmd: Command, cb: Callback, t: Tag)
    requires Wired(st) && (cmd.Subscribe? ==> cmd.tag !in st.downstreams)
    ensures Sent(Handle(st, cmd, cb, AlwaysOpen).out, Confs, t) == Weight(cmd, Subs, t)
  {
    var r := Handle(st, cmd, cb, AlwaysOpen);
    HandleRoutes(st, cmd, cb);
    if cmd.Subscribe? && cmd.tag == t {
      assert r.out[1..] == [];
    } else {
      forall o | o in r.out ensures Weight(o.cmd, Confs, t) == 0 {
        assert Justified(st, cmd, o);
      }
      NothingSent(r.out, Confs, t);
    }
  }

  lemma PhasedStep(n: Network, s: StageId, cb: Callback, t: Tag)
    requires Inv(n) && Enabled(n, Process(s, cb)) && t in n.links
    ensures Phased(Apply(n, Process(s, cb)), t)
  {
    hide Inv, Handle, Mail, Tally, Sent, Wired, Solvent, Justified;
    var st, cmd, r := n.stages[s], Box(n.inbox, s)[0], React(n, s, cb);
    var p, c := n.links[t].producer, n.links[t].consumer;
    HeadFacts(n, s, t);
    ReactRoutes(n, s, cb);
    ConfirmsSent(st, cmd, cb, t);
    MailAddressed(n, s, cb, t, p);
    MailAddressed(n, s, cb, t, c);
    TallyAfter(n, s, cb, p, Subs, t);
    TallyAfter(n, s, cb, c, Confs, t);
    if !(cmd.Confirmed? && cmd.tag == t) && !(cmd.Cancel? && cmd.tag == t) { assert SameUpstream(st, r.stage, t); }
    if !(cmd.Subscribe? && cmd.tag == t) && !(cmd.Cancel? && cmd.tag == t) { assert SameDownstream(st, r.stage, t); }
  }

  /** In an undisturbed subscription every command is one the handlers expect. */
  lemma HeadExpected(n: Network, s: StageId, t: Tag)
    requires Inv(n) && s in n.stages && Box(n.inbox, s) != [] && Undisturbed(n, t)
    ensures Expected(n.stages[s], Box(n.inbox, s)[0], t)
  {
    hide Inv, Tally, PendingFor, WindowOk, TagsOf, Wired;
    HeadFacts(n, s, t);
    if t in n.stages[s].downstreams { DownstreamTag(n.stages[s], t); }
  }

  lemma DownstreamTag(st: Stage, t: Tag)
    requires Wired(st) && t in st.downstreams
    ensures t in TagsOf(st.demands)
  {
  }

  lemma CreditStep(n: Network, s: StageId, cb: Callback, t: Tag)
    requires Inv(n) && Enabled(n, Process(s, cb)) && Undisturbed(n, t)
    ensures Credit(Apply(n, Process(s, cb)), t)
  {
    hide Inv, Handle, Mail, Tally, Sent, Wired, TagsOf, PendingFor, Phased, WindowOk, Expected;
    var st, cmd, r := n.stages[s], Box(n.inbox, s)[0], React(n, s, cb);
    var p, c := n.links[t].producer, n.links[t].consumer;
    HeadFacts(n, s, t);
    ReactRoutes(n, s, cb);
    HeadExpected(n, s, t);
    HandleBalanced(st, cmd, cb, t);
    MailAddressed(n, s, cb, t, p);
    MailAddressed(n, s, cb, t, c);
    TallyAfter(n, s, cb, p, Asks, t);
    TallyAfter(n, s, cb, c, Evs, t);
    if s != p {
      assert SameDownstream(st, r.stage, t);
      NotDownstreamNoPending(st, t);
      NotDownstreamNoPending(r.stage, t);
    }
    if s != c { assert SameUpstream(st, r.stage, t); }
  }

  lemma WindowStep(st: Stage, cmd: Command, cb: Callback, t: Tag)
    requires Wired(st) && Expected(st, cmd, t) && WindowOk(st, t)
    ensures WindowOk(Handle(st, cmd, cb, AlwaysOpen).stage, t)
  {
    hide DispatchAndDeliver, DrainBuffer, Wired, TagsOf, PendingFor, Sent;
    match cmd
    case Subscribe(_, _, _) =>
    case Confirmed(_, _, _) =>
    case Cancel(_) =>
    case AskDemand(tag, demand) =>
      if tag !in st.upstreams {
        var st1 := st.(demands := AddDemand(st.demands, tag, demand));
        AddDemandPending(st.demands, tag, demand, t);
        SameTagsWired(st, st1);
        DispatchShips(st1, [], t);
        var drained := DrainBuffer(st1, AlwaysOpen);
        SameTagsWired(st1, drained.stage);
        DispatchShips(drained.stage, cb.produced, t);
      }
    case Events(tag, events) =>
      DispatchShips(st, cb.emitted, t);
      var fwd := if st.kind == ProducerConsumer then DispatchAndDeliver(st, cb.emitted, AlwaysOpen) else Step(st, []);
      assert fwd.stage.upstreams == st.upstreams;
      if tag == t && t in st.upstreams && st.upstreams[t].mode == Automatic {
        ReaskWindow(st.upstreams[t], |events|, Room(fwd.stage));
      }
    case Emit => DispatchShips(st, cb.emitted, t);
  }

  /** A re-ask never widens the window beyond `max_demand`; when the room does
      not limit it, what is outstanding and what is counted fill the window. */
  lemma ReaskWindow(up: Upstream, n: nat, room: nat)
    requires up.minDemand <= up.maxDemand && n <= up.outstanding <= up.maxDemand
    ensures Reask(up, n, room).0.outstanding <= up.maxDemand
    ensures up.outstanding + up.pendingEvents == up.maxDemand ==>
            var up' := Reask(up, n, room).0;
            up'.outstanding + up'.pendingEvents == up.maxDemand <==>
              (up.pendingEvents + n < up.minDemand || up.pendingEvents + n <= room)
  {
  }

  lemma ProcessKeepsSolvent(n: Network, s: StageId, cb: Callback, t: Tag)
    requires Inv(n) && Enabled(n, Process(s, cb))
    ensures Solvent(Apply(n, Process(s, cb)), t)
  {
    hide Inv, Credit, WindowOk, Handle, Phased, Wired, Tally, Expected;
    if Undisturbed(n, t) {
      HeadFacts(n, s, t);
      CreditStep(n, s, cb, t);
      HeadExpected(n, s, t);
      if s == n.links[t].consumer {
        WindowStep(n.stages[s], Box(n.inbox, s)[0], cb, t);
      }
    }
  }

  lemma ProcessKeepsInv(n: Network, s: StageId, cb: Callback)
    requires Inv(n) && Enabled(n, Process(s, cb))
    ensures Inv(Apply(n, Process(s, cb)))
  {
    hide Located, Phased, Solvent, Handle;
    var n' := Apply(n, Process(s, cb));
    LocatedStep(n, s, cb);
    forall t | t in n'.links ensures Phased(n', t) { PhasedStep(n, s, cb, t); }
    forall t ensures Solvent(n', t) { ProcessKeepsSolvent(n, s, cb, t); }
  }

  // Client actions post one command.

  lemma PostBox(inbox: map<StageId, seq<Command>>, o: Out, x: StageId, k: Kind, t: Tag)
    ensures Box(Post(inbox, o), x) == Box(inbox, x) + if x == o.to then [o.cmd] else []
    ensures Tally(Box(Post(inbox, o), x), k, t) ==
            Tally(Box(inbox, x), k, t) + if x == o.to then Weight(o.cmd, k, t) else 0
  {
    if x == o.to {
      TallyAppend(Box(inbox, x), [o.cmd], k, t);
      assert [o.cmd][1..] == [];
      assert Tally([o.cmd], k, t) == Weight(o.cmd, k, t);
    }
  }

  ghost predicate Posting(n: Network, n': Network, o: Out)
  {
    && n'.stages == n.stages && n'.inbox == Post(n.inbox, o)
    && n.cancelled <= n'.cancelled && n.asked <= n'.asked
    && (forall t :: t in n.links ==> t in n'.links && n'.links[t] == n.links[t])
  }

  lemma PostLocated(n: Network, n': Network, o: Out)
    requires Inv(n) && Posting(n, n', o) && Placed(n', o.to, o.cmd)
    requires forall t :: t in n'.links ==> n'.links[t].producer in n.stages && n'.links[t].consumer in n.stages
    ensures Located(n')
  {
    hide Wired, Phased, Solvent, Tally;
    forall s ensures StagePlaced(n', s) { assert StagePlaced(n, s); }
    forall s ensures MailPlaced(n', s) {
      assert MailPlaced(n, s);
      PostBox(n.inbox, o, s, Asks, 0);
    }
  }

  /** A posted command that sets up nothing leaves every subscription's phase
      alone, and its credit too unless it asks for it by hand. */
  lemma PostQuiet(n: Network, n': Network, o: Out, t: Tag)
    requires Posting(n, n', o) && t in n.links && Phased(n, t) && Solvent(n, t)
    requires Weight(o.cmd, Subs, t) == Weight(o.cmd, Confs, t) == Weight(o.cmd, Evs, t) == 0
    requires Weight(o.cmd, Asks, t) > 0 ==> t in n'.asked
    ensures Phased(n', t) && Solvent(n', t)
  {
    hide Tally, WindowOk, PendingFor;
    var p, c := n.links[t].producer, n.links[t].consumer;
    PostBox(n.inbox, o, p, Subs, t);
    PostBox(n.inbox, o, c, Confs, t);
    PostBox(n.inbox, o, p, Asks, t);
    PostBox(n.inbox, o, c, Evs, t);
  }

  /** No command mentions a tag that was never handed out. */
  lemma {:induction false} UnusedTag(n: Network, cmds: seq<Command>, s: StageId, k: Kind, t: Tag)
    requires t !in n.links
    requires forall cmd :: cmd in cmds ==> Placed(n, s, cmd)
    ensures Tally(cmds, k, t) == 0
    decreases |cmds|
  {
    if cmds != [] {
      assert cmds[0] in cmds;
      assert Placed(n, s, cmds[0]);
      UnusedTag(n, cmds[1..], s, k, t);
    }
  }

  /** A fresh subscription starts with its request in transit and no credit. */
  lemma FreshSubscription(n: Network, n': Network, tag: Tag, link: Link, opts: SubscribeOpts)
    requires Located(n) && tag !in n.links
    requires Posting(n, n', Out(link.producer, Subscribe(tag, link.consumer, opts))) && n'.links == n.links[tag := link]
    ensures Phased(n', tag) && Solvent(n', tag)
  {
    hide Tally, Wired, PendingFor;
    var p, c := link.producer, link.consumer;
    var o := Out(p, Subscribe(tag, c, opts));
    assert StagePlaced(n, p) && StagePlaced(n, c) && MailPlaced(n, p) && MailPlaced(n, c);
    assert tag !in At(n, p).downstreams && tag !in At(n, c).upstreams;
    NotDownstreamNoPending(At(n, p), tag);
    UnusedTag(n, Box(n.inbox, p), p, Subs, tag);
    UnusedTag(n, Box(n.inbox, c), c, Confs, tag);
    UnusedTag(n, Box(n.inbox, p), p, Asks, tag);
    UnusedTag(n, Box(n.inbox, c), c, Evs, tag);
    PostBox(n.inbox, o, p, Subs, tag);
    PostBox(n.inbox, o, c, Confs, tag);
    PostBox(n.inbox, o, p, Asks, tag);
    PostBox(n.inbox, o, c, Evs, tag);
  }

  lemma SubscribeKeepsInv(n: Network, tag: Tag, link: Link, opts: SubscribeOpts)
    requires Inv(n) && Enabled(n, ClientSubscribe(tag, link, opts))
    ensures Inv(Apply(n, ClientSubscribe(tag, link, opts)))
  {
    hide Phased, Solvent;
    var n' := Apply(n, ClientSubscribe(tag, link, opts));
    var o := Out(link.producer, Subscribe(tag, link.consumer, opts));
    PostLocated(n, n', o);
    FreshSubscription(n, n', tag, link, opts);
    forall t | t in n'.links ensures Phased(n', t) && Solvent(n', t) {
      if t != tag { PostQuiet(n, n', o, t); }
    }
    forall t | t !in n'.links ensures Solvent(n', t) { UnlinkedSolvent(n', t); }
  }

  lemma UnlinkedSolvent(n: Network, t: Tag)
    requires t !in n.links
    ensures Solvent(n, t)
  {
  }

  lemma QuietKeepsInv(n: Network, n': Network, o: Out)
    requires Inv(n) && Posting(n, n', o) && n'.links == n.links && Placed(n', o.to, o.cmd)
    requires o.cmd.Cancel? || o.cmd.Emit? || (o.cmd.AskDemand? && o.cmd.tag in n'.asked)
    ensures Inv(n')
  {
    hide Phased, Solvent;
    PostLocated(n, n', o);
    forall t | t in n'.links ensures Phased(n', t) && Solvent(n', t) { PostQuiet(n, n', o, t); }
    forall t | t !in n'.links ensures Solvent(n', t) { UnlinkedSolvent(n', t); }
  }

  lemma SpawnKeepsInv(n: Network, id: StageId, kind: StageType, dispatcher: Dispatcher)
    requires Inv(n) && id !in n.stages
    ensures Inv(Apply(n, Spawn(id, kind, dispatcher)))
  {
    hide Tally;
    var n' := Apply(n, Spawn(id, kind, dispatcher));
    forall s ensures StagePlaced(n', s) && MailPlaced(n', s) { assert StagePlaced(n, s) && MailPlaced(n, s); }
    forall t | t in n'.links ensures Phased(n', t) { assert Phased(n, t); }
    forall t ensures Solvent(n', t) { assert Solvent(n, t); }
  }

  lemma ApplyKeepsInv(n: Network, a: Action)
    requires Inv(n) && Enabled(n, a)
    ensures Inv(Apply(n, a))
  {
    hide Inv, React;
    var n' := Apply(n, a);
    match a
    case Process(s, cb) => ProcessKeepsInv(n, s, cb);
    case ClientSubscribe(tag, link, opts) => SubscribeKeepsInv(n, tag, link, opts);
    case Spawn(id, kind, dispatcher) => SpawnKeepsInv(n, id, kind, dispatcher);
    case ClientCancel(at, tag) => QuietKeepsInv(n, n', Out(at, Cancel(tag)));
    case ClientAsk(at, tag, demand) => QuietKeepsInv(n, n', Out(at, AskDemand(tag, demand)));
    case ClientEmit(at) => QuietKeepsInv(n, n', Out(at, Emit));
  }

  lemma {:induction false} InvAlways(run: seq<Action>)
    ensures Inv(Exec(run))
    decreases |run|
  {
    if run != [] {
      InvAlways(run[..|run| - 1]);
      var n, a := Exec(run[..|run| - 1]), run[|run| - 1];
      if Enabled(n, a) { ApplyKeepsInv(n, a); }
    }
  }

  // ---------------------------------------------------------------------------
  // Main results
  // ---------------------------------------------------------------------------

  /** Credit conservation. In every reachable state of every interleaving, for
      every subscription that was neither cancelled nor asked for by hand, the
      consumer's outstanding demand is the asks in transit plus the producer's
      pending demand plus the events in transit. */
  lemma CreditConservation(run: seq<Action>, t: Tag)
    ensures var n := Exec(run);
            t in n.links && t !in n.cancelled && t !in n.asked ==>
              var p, c := n.links[t].producer, n.links[t].consumer;
              Owed(At(n, c), t) ==
              Tally(Box(n.inbox, p), Asks, t) + PendingFor(At(n, p).demands, t) + Tally(Box(n.inbox, c), Evs, t)
  {
    hide Tally, PendingFor, Located;
    InvAlways(run);
    var n := Exec(run);
    assert Solvent(n, t);
  }

  /** The window: outstanding demand never exceeds the negotiated maximum, no
      batch in transit is larger than what is outstanding (so the saturating
      subtraction never saturates), and a producer's record stays within it too. */
  lemma WindowNeverExceeded(run: seq<Action>, t: Tag)
    ensures var n := Exec(run);
            t in n.links && t !in n.cancelled && t !in n.asked ==>
              var p, c := n.links[t].producer, n.links[t].consumer;
              t in At(n, c).upstreams && At(n, c).upstreams[t].mode == Automatic ==>
                var up := At(n, c).upstreams[t];
                && up.outstanding <= up.maxDemand
                && PendingFor(At(n, p).demands, t) <= up.maxDemand
                && (forall batch :: Events(t, batch) in Box(n.inbox, c) ==> |batch| <= up.outstanding)
  {
    hide Tally, PendingFor, Located;
    InvAlways(run);
    var n := Exec(run);
    assert Solvent(n, t);
    if Undisturbed(n, t) {
      var c := n.links[t].consumer;
      forall batch | Events(t, batch) in Box(n.inbox, c) ensures |batch| <= Tally(Box(n.inbox, c), Evs, t) {
        TallyMember(Box(n.inbox, c), Evs, t, Events(t, batch));
      }
    }
  }

  /** No stall: a pure consumer in automatic mode always has demand outstanding,
      whatever options were negotiated (`min_demand > max_demand` included). */
  lemma ConsumerNeverStalls(run: seq<Action>, t: Tag)
    ensures var n := Exec(run);
            t in n.links && t !in n.cancelled && t !in n.asked ==>
              var st := At(n, n.links[t].consumer);
              st.kind == Consumer && t in st.upstreams && st.upstreams[t].mode == Automatic ==>
                var up := st.upstreams[t];
                up.outstanding + up.pendingEvents == up.maxDemand && up.outstanding > 0
  {
    hide Located, Credit;
    InvAlways(run);
    assert Solvent(Exec(run), t);
  }
}

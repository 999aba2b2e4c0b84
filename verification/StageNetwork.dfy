/** A network of stages joined by first-in-first-out command channels, and the
    commands in transit between them. Every interleaving of the stages' loops
    with clients that spawn, subscribe, cancel, ask and cast is a run. Sends
    succeed: channels are unbounded and no peer dies. */
module StageNetwork {
  import opened Values
  import opened StageDispatch
  import opened StageLoop

  /** The two ends of a subscription, fixed when the client subscribes. */
  datatype Link = Link(producer: StageId, consumer: StageId)

  datatype Network = Network(
    stages: map<StageId, Stage>,
    inbox: map<StageId, seq<Command>>,
    links: map<Tag, Link>,
    cancelled: set<Tag>,
    asked: set<Tag>)

  datatype Action =
    | Spawn(id: StageId, kind: StageType, dispatcher: Dispatcher)
    | ClientSubscribe(tag: Tag, link: Link, opts: SubscribeOpts)
    | ClientCancel(at: StageId, tag: Tag)
    | ClientAsk(at: StageId, tag: Tag, demand: nat)
    | ClientEmit(at: StageId)
    | Process(at: StageId, cb: Callback)

  function AlwaysOpen(t: Tag): Channel { Open }

  function Box(inbox: map<StageId, seq<Command>>, s: StageId): seq<Command>
  {
    if s in inbox then inbox[s] else []
  }

  function Post(inbox: map<StageId, seq<Command>>, o: Out): map<StageId, seq<Command>>
  {
    inbox[o.to := Box(inbox, o.to) + [o.cmd]]
  }

  function SendAll(inbox: map<StageId, seq<Command>>, out: seq<Out>): map<StageId, seq<Command>>
    decreases |out|
  {
    if out == [] then inbox else SendAll(Post(inbox, out[0]), out[1..])
  }

  predicate Enabled(n: Network, a: Action)
  {
    match a
    case Spawn(id, _, _) => id !in n.stages
    case ClientSubscribe(tag, link, _) =>
      tag !in n.links && link.producer in n.stages && link.consumer in n.stages
    case ClientCancel(at, tag) => at in n.stages && tag in n.links
    case ClientAsk(at, tag, _) => at in n.stages && tag in n.links
    case ClientEmit(at) => at in n.stages
    case Process(at, _) => at in n.stages && Box(n.inbox, at) != []
  }

  function At(n: Network, s: StageId): Stage
  {
    if s in n.stages then n.stages[s] else Stage(s, Consumer, DemandDispatcher, map[], map[], [], [])
  }

  /** The stage's reaction to the command at the head of its channel. */
  function React(n: Network, s: StageId, cb: Callback): Step
    requires s in n.stages && Box(n.inbox, s) != []
  {
    Handle(n.stages[s], Box(n.inbox, s)[0], cb, AlwaysOpen)
  }

  function Apply(n: Network, a: Action): Network
    requires Enabled(n, a)
  {
    match a
    case Spawn(id, kind, dispatcher) =>
      n.(stages := n.stages[id := Stage(id, kind, dispatcher, map[], map[], [], [])])
    case ClientSubscribe(tag, link, opts) =>
      n.(links := n.links[tag := link],
         inbox := Post(n.inbox, Out(link.producer, Subscribe(tag, link.consumer, opts))))
    case ClientCancel(at, tag) =>
      n.(cancelled := n.cancelled + {tag}, inbox := Post(n.inbox, Out(at, Cancel(tag))))
    case ClientAsk(at, tag, demand) =>
      n.(asked := n.asked + {tag}, inbox := Post(n.inbox, Out(at, AskDemand(tag, demand))))
    case ClientEmit(at) =>
      n.(inbox := Post(n.inbox, Out(at, Emit)))
    case Process(s, cb) =>
      var r := React(n, s, cb);
      n.(stages := n.stages[s := r.stage],
         inbox := SendAll(n.inbox[s := Box(n.inbox, s)[1..]], r.out))
  }

  /** The state after a run; actions that are not enabled do nothing. */
  function Exec(run: seq<Action>): Network
  {
    if run == [] then Network(map[], map[], map[], {}, {})
    else
      var n := Exec(run[..|run| - 1]);
      var a := run[|run| - 1];
      if Enabled(n, a) then Apply(n, a) else n
  }

  // ---------------------------------------------------------------------------
  // Counting commands in transit
  // ---------------------------------------------------------------------------

  datatype Kind = Asks | Evs | Subs | Confs

  function Weight(cmd: Command, k: Kind, t: Tag): nat
  {
    match k
    case Asks => if cmd.AskDemand? && cmd.tag == t then cmd.demand else 0
    case Evs => if cmd.Events? && cmd.tag == t then |cmd.events| else 0
    case Subs => if cmd.Subscribe? && cmd.tag == t then 1 else 0
    case Confs => if cmd.Confirmed? && cmd.tag == t then 1 else 0
  }

  function Tally(cmds: seq<Command>, k: Kind, t: Tag): nat
  {
    if cmds == [] then 0 else Weight(cmds[0], k, t) + Tally(cmds[1..], k, t)
  }

  /** The commands addressed to `s`, in sending order. */
  function Mail(out: seq<Out>, s: StageId): seq<Command>
  {
    if out == [] then []
    else (if out[0].to == s then [out[0].cmd] else []) + Mail(out[1..], s)
  }

  function Sent(out: seq<Out>, k: Kind, t: Tag): nat
  {
    if out == [] then 0 else Weight(out[0].cmd, k, t) + Sent(out[1..], k, t)
  }

  lemma {:induction false} TallyAppend(a: seq<Command>, b: seq<Command>, k: Kind, t: Tag)
    ensures Tally(a + b, k, t) == Tally(a, k, t) + Tally(b, k, t)
    decreases |a|
  {
    if a == [] {
      assert a + b == b;
    } else {
      assert (a + b)[1..] == a[1..] + b;
      TallyAppend(a[1..], b, k, t);
    }
  }

  lemma {:induction false} SendAllBox(inbox: map<StageId, seq<Command>>, out: seq<Out>, s: StageId)
    ensures Box(SendAll(inbox, out), s) == Box(inbox, s) + Mail(out, s)
    decreases |out|
  {
    if out != [] {
      SendAllBox(Post(inbox, out[0]), out[1..], s);
      if out[0].to == s {
        assert Box(inbox, s) + [out[0].cmd] + Mail(out[1..], s) == Box(inbox, s) + ([out[0].cmd] + Mail(out[1..], s));
      } else {
        assert [] + Mail(out[1..], s) == Mail(out[1..], s);
      }
    }
  }

  lemma {:induction false} MailMember(out: seq<Out>, s: StageId, cmd: Command)
    requires cmd in Mail(out, s)
    ensures Out(s, cmd) in out
    decreases |out|
  {
    if out[0].to == s && cmd == out[0].cmd {
    } else {
      assert cmd in Mail(out[1..], s);
      MailMember(out[1..], s, cmd);
    }
  }

  /** When every command that counts is addressed to `s`, the mail of `s` counts
      them all and no other mail counts any. */
  lemma {:induction false} MailTally(out: seq<Out>, to: StageId, s: StageId, k: Kind, t: Tag)
    requires forall o :: o in out && Weight(o.cmd, k, t) > 0 ==> o.to == to
    ensures Tally(Mail(out, s), k, t) == if s == to then Sent(out, k, t) else 0
    decreases |out|
  {
    if out != [] {
      MailTally(out[1..], to, s, k, t);
      assert out[0] in out;
      var rest := Mail(out[1..], s);
      if out[0].to == s {
        assert ([out[0].cmd] + rest)[1..] == rest;
      } else {
        assert [] + rest == rest;
      }
    }
  }

  lemma {:induction false} TallyMember(cmds: seq<Command>, k: Kind, t: Tag, cmd: Command)
    requires cmd in cmds
    ensures Weight(cmd, k, t) <= Tally(cmds, k, t)
    decreases |cmds|
  {
    if cmd != cmds[0] { TallyMember(cmds[1..], k, t, cmd); }
  }

  lemma {:induction false} SentAppend(a: seq<Out>, b: seq<Out>, k: Kind, t: Tag)
    ensures Sent(a + b, k, t) == Sent(a, k, t) + Sent(b, k, t)
    decreases |a|
  {
    if a == [] {
      assert a + b == b;
    } else {
      assert (a + b)[1..] == a[1..] + b;
      SentAppend(a[1..], b, k, t);
    }
  }
}

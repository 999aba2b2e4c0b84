/** What a node learns gets out: suspicions and deaths are queued, pings spend the queue's
    budget, and an answered probe does not count as failed. */
module SwimNews {
  import opened Values
  import opened SwimMembers
  import opened SwimDetector
  import opened SwimGossip
  import opened SwimService
  import SwimRuns

  // ---------------------------------------------------------------------------
  // Adding to a queue with room
  // ---------------------------------------------------------------------------

  /** The entry for `x` is as it was or has a full budget. */
  ghost predicate AsBeforeOrFull(q: Queue, q': Queue, x: NodeId)
  {
    x in q'.pending ==> q'.pending[x].left == q.budget || (x in q.pending && q'.pending[x] == q.pending[x])
  }

  lemma AddWithRoom(q: Queue, u: Update, q': Queue)
    requires Added(q, u, q') && |q.pending| < q.maxEntries
    ensures |q'.pending| <= |q.pending| + 1 && q'.maxEntries == q.maxEntries && q'.budget == q.budget
    ensures forall x :: x in q.pending ==> x in q'.pending && AtLeast(q'.pending[x].update, q.pending[x].update)
    ensures forall x :: AsBeforeOrFull(q, q', x)
  {
    InsertSize(q.pending, u.node, Pending(u, q.budget));
  }

  /** Updates added one by one while there is room all stay, or give way to one at least
      as recent. */
  lemma {:induction false} AddedWithRoom(q: Queue, us: seq<Update>, q': Queue, qs: seq<Queue>, k: nat)
    requires AddedVia(q, us, q', qs) && |q.pending| + |us| <= q.maxEntries && k <= |us|
    ensures |qs[k].pending| <= |q.pending| + k && qs[k].maxEntries == q.maxEntries && qs[k].budget == q.budget
    ensures forall i :: 0 <= i < k ==> us[i].node in qs[k].pending && AtLeast(qs[k].pending[us[i].node].update, us[i])
    ensures forall x :: AsBeforeOrFull(q, qs[k], x)
    decreases k
  {
    if k > 0 {
      AddedWithRoom(q, us, q', qs, k - 1);
      var mid, u := qs[k - 1], us[k - 1];
      hide Added, AtLeast;
      assert Added(qs[k - 1], us[k - 1], qs[k - 1 + 1]);
      AddWithRoom(mid, u, qs[k]);
      AddSupersedes(mid, u, qs[k]);
      forall i | 0 <= i < k ensures us[i].node in qs[k].pending && AtLeast(qs[k].pending[us[i].node].update, us[i]) {
        if i < k - 1 { AtLeastTrans(qs[k].pending[us[i].node].update, mid.pending[us[i].node].update, us[i]); }
      }
      forall x ensures AsBeforeOrFull(q, qs[k], x) { assert AsBeforeOrFull(q, mid, x) && AsBeforeOrFull(mid, qs[k], x); }
    }
  }

  lemma AtLeastTrans(u: Update, v: Update, w: Update)
    requires AtLeast(u, v) && AtLeast(v, w)
    ensures AtLeast(u, w)
  {
  }

  lemma {:induction false} SentAllKeeps(pending: map<NodeId, Pending>, ids: seq<NodeId>, x: NodeId)
    requires forall k :: 0 <= k < |ids| ==> ids[k] in pending
    requires forall j, k :: 0 <= j < k < |ids| ==> ids[j] != ids[k]
    requires x in pending && pending[x].left >= 2
    ensures var r := SentAll(pending, ids); x in r && r[x].update == pending[x].update
    decreases |ids|
  {
    hide SentAll;
    if x in ids {
      var n := |ids| - 1;
      SentAllSnoc(pending, ids);
      if ids[n] == x { OnlyLast(ids); } else { SentAllKeeps(pending, ids[..n], x); }
    }
  }

  lemma OnlyLast(ids: seq<NodeId>)
    requires ids != [] && forall j, k :: 0 <= j < k < |ids| ==> ids[j] != ids[k]
    ensures ids[|ids| - 1] !in ids[..|ids| - 1]
  {
  }

  lemma DrainKeeps(q: Queue, max: nat, q': Queue, x: NodeId)
    requires SomeDrained(q, max, q') && x in q.pending && q.pending[x].left >= 2
    ensures x in q'.pending && q'.pending[x].update == q.pending[x].update
  {
    var out :| Drained(q, max, out, q');
    var ids :| DrainedBy(q, max, ids, out, q');
    SentAllKeeps(q.pending, ids, x);
  }

  // ---------------------------------------------------------------------------
  // News of a period
  // ---------------------------------------------------------------------------

  /** The period finds `id` suspect after its unanswered probe. */
  ghost predicate FoundSuspect(cfg: Config, s: Service, now: nat, id: NodeId)
  {
    var ms := Resolved(cfg, s, now).1;
    s.probe == Some(id) && !s.acked && id in ms.list && ms.list[id].state == Suspect
  }

  /** What is known of `id` once overdue suspects are given up. */
  ghost function KnownThen(cfg: Config, s: Service, now: nat, id: NodeId): Option<Member>
  {
    var (d, ms) := Resolved(cfg, s, now);
    Known(Expire(d, ms, cfg, now).1, id)
  }

  /** Something at least as recent as `u` is pending. */
  ghost predicate Queued(q: Queue, u: Update)
  {
    u.node in q.pending && AtLeast(q.pending[u.node].update, u)
  }

  lemma {:induction false} DeathIsNews(ms: Members, ids: seq<NodeId>, id: NodeId)
    requires id in ids && id in ms.list
    ensures DeadUpdate(id, ms.list[id].addr, ms.list[id].incarnation) in DeathNews(ms, ids)
    decreases |ids|
  {
    var n := |ids| - 1;
    if ids[n] != id { DeathIsNews(ms, ids[..n], id); }
  }

  lemma {:induction false} DeathNewsSize(ms: Members, ids: seq<NodeId>)
    ensures |DeathNews(ms, ids)| <= |ids|
    decreases |ids|
  {
    if ids != [] { DeathNewsSize(ms, ids[..|ids| - 1]); }
  }

  lemma NewsGetsQueued(q: Queue, us: seq<Update>, q': Queue, u: Update)
    requires AddedAll(q, us, q') && u in us && |q.pending| + |us| <= q.maxEntries
    ensures Queued(q', u) && AsBeforeOrFull(q, q', u.node) && q'.budget == q.budget
  {
    hide AtLeast;
    var qs :| AddedVia(q, us, q', qs);
    AddedWithRoom(q, us, q', qs, |us|);
    var i :| 0 <= i < |us| && us[i] == u;
    assert AsBeforeOrFull(q, qs[|us|], u.node);
  }

  /** A node found suspect or declared dead in a period is news: with room in the queue
      and sends to spare, something at least as recent is pending when the period ends. */
  lemma PeriodSpreadsNews(cfg: Config, s: Service, now: nat, dead: seq<NodeId>, removed: seq<NodeId>, s': Service, u: Update)
    requires Ticked(cfg, s, now, dead, removed, s') && Sound(s.queue)
    requires |s.queue.pending| + 1 + |dead| <= s.queue.maxEntries
    requires s.queue.budget >= 2 && (u.node in s.queue.pending ==> s.queue.pending[u.node].left >= 2)
    requires var ms := Resolved(cfg, s, now).1;
             || (FoundSuspect(cfg, s, now, u.node) && u == SuspectUpdate(u.node, ms.list[u.node].addr, ms.list[u.node].incarnation))
             || (&& u.node in dead && KnownThen(cfg, s, now, u.node).Some?
                 && var m := KnownThen(cfg, s, now, u.node).value; u == DeadUpdate(u.node, m.addr, m.incarnation))
    ensures Queued(s'.queue, u)
  {
    hide AddedAll, Remove, SomeDrained, AtLeast, Expire, RecordNack, Sound, Candidates, ExpiredSuspects, ExpiredDead, DeadAmong;
    var (d1, m1) := Resolved(cfg, s, now);
    var (d2, m2) := Expire(d1, m1, cfg, now);
    var us := SuspicionNews(s, m1) + DeathNews(m2, dead);
    var q :| AddedAll(s.queue, us, q) && Probing(cfg, s'.members, q, s.acked, s');
    DeathNewsSize(m2, dead);
    if u.node in dead && KnownThen(cfg, s, now, u.node).Some? { DeathIsNews(m2, dead, u.node); }
    assert u in us;
    NewsGetsQueued(s.queue, us, q, u);
    if s'.probe.Some? { DrainKeeps(q, cfg.maxGossip, s'.queue, u.node); }
  }

  /** In every run the queue holds up to 1024 entries and sends each up to four times. */
  lemma {:induction false} QueueSettings(cfg: Config, ss: seq<Service>, actions: seq<Action>, i: nat)
    requires SwimRuns.IsRun(cfg, ss, actions) && i <= |actions|
    ensures ss[i].queue.maxEntries == 1024 && ss[i].queue.budget == 4
    decreases i
  {
    hide SwimRuns.IsRun, SwimService.Next;
    if i == 0 {
      FreshSettings(cfg, ss, actions);
    } else {
      QueueSettings(cfg, ss, actions, i - 1);
      SwimRuns.RunPrefix(cfg, ss, actions, i - 1);
      StepKeepsSettings(cfg, ss[i - 1], actions[i - 1], ss[i]);
    }
  }

  lemma FreshSettings(cfg: Config, ss: seq<Service>, actions: seq<Action>)
    requires SwimRuns.IsRun(cfg, ss, actions)
    ensures |ss| > 0 && ss[0].queue.maxEntries == 1024 && ss[0].queue.budget == 4
  {
    hide SwimService.Next;
  }

  ghost predicate SameSettings(q: Queue, q': Queue)
  {
    q'.maxEntries == q.maxEntries && q'.budget == q.budget
  }

  lemma {:induction false} AddedKeepsSettings(q: Queue, us: seq<Update>, q': Queue, qs: seq<Queue>, k: nat)
    requires AddedVia(q, us, q', qs) && k <= |us|
    ensures SameSettings(q, qs[k])
    decreases k
  {
    if k > 0 {
      AddedKeepsSettings(q, us, q', qs, k - 1);
      assert Added(qs[k - 1], us[k - 1], qs[k - 1 + 1]);
    }
  }

  lemma AddedAllSettings(q: Queue, us: seq<Update>, q': Queue)
    requires AddedAll(q, us, q')
    ensures SameSettings(q, q')
  {
    hide Added;
    var qs :| AddedVia(q, us, q', qs);
    AddedKeepsSettings(q, us, q', qs, |us|);
  }

  lemma DrainedSettings(q: Queue, max: nat, q': Queue)
    requires SomeDrained(q, max, q')
    ensures SameSettings(q, q')
  {
    var out :| Drained(q, max, out, q');
    var ids :| DrainedBy(q, max, ids, out, q');
  }

  lemma TickSettings(cfg: Config, s: Service, now: nat, dead: seq<NodeId>, removed: seq<NodeId>, s': Service)
    requires Ticked(cfg, s, now, dead, removed, s')
    ensures SameSettings(s.queue, s'.queue)
  {
    hide AddedAll, Expire, Remove, Resolved, SomeDrained, SuspicionNews, DeathNews, Candidates;
    var m1 := Resolved(cfg, s, now).1;
    var m2 := KnownMembers(cfg, s, now);
    var us := SuspicionNews(s, m1) + DeathNews(m2, dead);
    var q :| AddedAll(s.queue, us, q) && Probing(cfg, s'.members, q, s.acked, s');
    AddedAllSettings(s.queue, us, q);
    if s'.probe.Some? { DrainedSettings(q, cfg.maxGossip, s'.queue); }
  }

  ghost function KnownMembers(cfg: Config, s: Service, now: nat): Members
  {
    var (d, ms) := Resolved(cfg, s, now);
    Expire(d, ms, cfg, now).1
  }

  lemma StepKeepsSettings(cfg: Config, s: Service, a: Action, s': Service)
    requires SwimService.Next(cfg, s, a, s')
    ensures SameSettings(s.queue, s'.queue)
  {
    match a
    case Seed(_, _) =>
    case Period(now, dead, removed) =>
      hide Ticked;
      TickSettings(cfg, s, now, dead, removed, s');
    case Receive(env) =>
      hide AddedAll, ApplyAll, Refutations, Heard, SomeDrained, RecordAck, SameSettings;
      var (d, ms) := Heard(s, env);
      var q :| && AddedAll(s.queue, Refutations(ms, env.gossip), q)
               && Replied(cfg, s.(detector := d, members := ApplyAll(ms, env.gossip), queue := q), env, s');
      AddedAllSettings(s.queue, Refutations(ms, env.gossip), q);
      if env.kind.Ping? { DrainedSettings(q, cfg.maxGossip, s'.queue); }
      SettingsChain(s.queue, q, s'.queue);
  }

  lemma SettingsChain(a: Queue, b: Queue, c: Queue)
    requires SameSettings(a, b) && (c == b || SameSettings(b, c))
    ensures SameSettings(a, c)
  {
  }

  /** The same over runs, where the queue always has sends to spare for something new. */
  lemma RunsSpreadNews(cfg: Config, ss: seq<Service>, actions: seq<Action>, i: nat, u: Update)
    requires SwimRuns.IsRun(cfg, ss, actions) && i < |actions| && actions[i].Period?
    requires |ss[i].queue.pending| + 1 + |actions[i].dead| <= 1024
    requires u.node in ss[i].queue.pending ==> ss[i].queue.pending[u.node].left >= 2
    requires var ms := Resolved(cfg, ss[i], actions[i].now).1;
             || (&& FoundSuspect(cfg, ss[i], actions[i].now, u.node)
                 && u == SuspectUpdate(u.node, ms.list[u.node].addr, ms.list[u.node].incarnation))
             || (&& u.node in actions[i].dead && KnownThen(cfg, ss[i], actions[i].now, u.node).Some?
                 && var m := KnownThen(cfg, ss[i], actions[i].now, u.node).value; u == DeadUpdate(u.node, m.addr, m.incarnation))
    ensures Queued(ss[i + 1].queue, u)
  {
    hide Ticked, Resolved, KnownThen, Queued, SwimRuns.IsRun, Justified;
    SwimRuns.AlwaysHealthy(cfg, ss, actions, i);
    QueueSettings(cfg, ss, actions, i);
    SwimRuns.RunPrefix(cfg, ss, actions, i);
    PeriodSpreadsNews(cfg, ss[i], actions[i].now, actions[i].dead, actions[i].removed, ss[i + 1], u);
  }

  // ---------------------------------------------------------------------------
  // Probes
  // ---------------------------------------------------------------------------

  /** A ping is answered with as much gossip as allowed, and each update sent is paid for. */
  lemma PingCarriesGossip(cfg: Config, s: Service, env: Envelope, s': Service)
    requires Replied(cfg, s, env, s') && env.kind.Ping? && Sound(s.queue)
    ensures Total(s.queue.pending) - Total(s'.queue.pending) == Min(cfg.maxGossip, |s.queue.pending|)
  {
    hide Total, Drained, Sound;
    var out :| Drained(s.queue, cfg.maxGossip, out, s'.queue);
    DrainSpendsBudget(s.queue, cfg.maxGossip, out, s'.queue);
  }

  /** The envelope acknowledges `id` and is not the answer to a relayed probe. */
  ghost predicate Acknowledges(s: Service, env: Envelope, id: NodeId)
  {
    && env.kind.AckFor?
    && (env.kind.about == Some(id) || (env.kind.about == None && env.from == id && env.seqNo !in s.relays))
  }

  lemma ReceiveAcks(cfg: Config, s: Service, env: Envelope, s': Service)
    requires Received(cfg, s, env, s') && s.probe.Some?
    ensures s'.probe == s.probe && (s'.acked <==> s.acked || Acknowledges(s, env, s.probe.value))
  {
    hide AddedAll, ApplyAll, Refutations, Heard, SomeDrained, RecordAck;
    var (d, ms) := Heard(s, env);
    var q :| && AddedAll(s.queue, Refutations(ms, env.gossip), q)
             && Replied(cfg, s.(detector := d, members := ApplyAll(ms, env.gossip), queue := q), env, s');
  }

  /** Some envelope between `i` and `j` acknowledged `id`. */
  ghost predicate AcknowledgedIn(ss: seq<Service>, actions: seq<Action>, i: nat, j: nat, id: NodeId)
  {
    |ss| > |actions| >= j && exists k :: i <= k < j && AcknowledgedAt(ss[k], actions[k], id)
  }

  ghost predicate AcknowledgedAt(s: Service, a: Action, id: NodeId)
  {
    a.Receive? && Acknowledges(s, a.env, id)
  }

  lemma AcknowledgedNext(ss: seq<Service>, actions: seq<Action>, i: nat, j: nat, id: NodeId)
    requires |ss| > |actions| > j >= i
    ensures AcknowledgedIn(ss, actions, i, j + 1, id) <==>
              AcknowledgedIn(ss, actions, i, j, id) || AcknowledgedAt(ss[j], actions[j], id)
  {
    hide AcknowledgedAt;
    if AcknowledgedIn(ss, actions, i, j, id) {
      var k :| i <= k < j && AcknowledgedAt(ss[k], actions[k], id);
    }
  }

  /** In every run, until the next period, a probe counts as answered if and only if an
      envelope since then acknowledged its target other than by closing a relay; a seed or
      another envelope does not change the probe. */
  lemma {:induction false} AnsweredIff(cfg: Config, ss: seq<Service>, actions: seq<Action>, i: nat, j: nat)
    requires SwimRuns.IsRun(cfg, ss, actions) && i < j <= |actions| && actions[i].Period? && ss[i + 1].probe.Some?
    requires forall k :: i < k < j ==> !actions[k].Period?
    ensures ss[j].probe == ss[i + 1].probe
    ensures ss[j].acked <==> AcknowledgedIn(ss, actions, i + 1, j, ss[j].probe.value)
    decreases j
  {
    hide SwimRuns.IsRun, Ticked, Received, AcknowledgedIn, Acknowledges;
    SwimRuns.RunPrefix(cfg, ss, actions, j - 1);
    if j == i + 1 {
      FreshProbe(cfg, ss[i], actions[i], ss[j]);
      NothingYet(ss, actions, j, ss[j].probe.value);
    } else {
      AnsweredIff(cfg, ss, actions, i, j - 1);
      var s, a := ss[j - 1], actions[j - 1];
      if a.Receive? { ReceiveAcks(cfg, s, a.env, ss[j]); }
      AcknowledgedNext(ss, actions, i + 1, j - 1, s.probe.value);
    }
  }

  /** A period probes some peer that is not dead if and only if there is one. */
  lemma FreshProbe(cfg: Config, s: Service, a: Action, s': Service)
    requires SwimService.Next(cfg, s, a, s') && a.Period?
    ensures s'.probe.Some? <==> exists id :: id in s'.members.list && id != s'.members.self && s'.members.list[id].state != Dead
    ensures s'.probe.Some? ==>
              && !s'.acked && s'.probe.value in s'.members.list
              && s'.probe.value != s'.members.self && s'.members.list[s'.probe.value].state != Dead
  {
    hide AddedAll, SomeDrained, Expire, Remove, Resolved, SuspicionNews, DeathNews;
    forall id ensures id in Candidates(s'.members) <==>
                        id in s'.members.list && id != s'.members.self && s'.members.list[id].state != Dead {}
  }

  lemma NothingYet(ss: seq<Service>, actions: seq<Action>, j: nat, id: NodeId)
    ensures !AcknowledgedIn(ss, actions, j, j, id)
  {
  }

  /** What a period logs: the previous probe as failed exactly if it was not answered, and
      the suspicions given up. */
  lemma PeriodLogs(cfg: Config, s: Service, now: nat, dead: seq<NodeId>, removed: seq<NodeId>, s': Service)
    requires Ticked(cfg, s, now, dead, removed, s')
    ensures s'.detector.log ==
            s.detector.log + (if s.probe.Some? && !s.acked then [Nack(s.probe.value, now)] else []) + [Expiry(Ids(dead), now)]
  {
    hide AddedAll, Probing, DeadAmong, ExpiredDead, ExpiredSuspects;
    assert s.detector.log + [] == s.detector.log;
  }

  /** In every run, a probe counts against its target at the next period if and only if no
      envelope in between acknowledged the target. */
  lemma ProbeFailsIff(cfg: Config, ss: seq<Service>, actions: seq<Action>, i: nat, j: nat)
    requires SwimRuns.IsRun(cfg, ss, actions) && i < j < |actions| && actions[i].Period? && actions[j].Period?
    requires ss[i + 1].probe.Some? && forall k :: i < k < j ==> !actions[k].Period?
    ensures var id := ss[i + 1].probe.value;
            ss[j + 1].detector.log == ss[j].detector.log
              + (if AcknowledgedIn(ss, actions, i + 1, j, id) then [] else [Nack(id, actions[j].now)])
              + [Expiry(Ids(actions[j].dead), actions[j].now)]
  {
    hide SwimRuns.IsRun, Ticked, AcknowledgedIn, Ids;
    AnsweredIff(cfg, ss, actions, i, j);
    SwimRuns.RunPrefix(cfg, ss, actions, j);
    PeriodLogs(cfg, ss[j], actions[j].now, actions[j].dead, actions[j].removed, ss[j + 1]);
  }

  // ---------------------------------------------------------------------------
  // Envelopes
  // ---------------------------------------------------------------------------

  /** Whom an ack is about: the node it names, the target of the relay it closes, or its
      sender. */
  ghost function HeardOf(s: Service, env: Envelope): NodeId
    requires env.kind.AckFor?
  {
    match env.kind.about
    case Some(id) => id
    case None => if env.seqNo in s.relays then s.relays[env.seqNo].target else env.from
  }

  /** The signs of life in an envelope: its sender, and whom it acknowledges; never the
      node itself. */
  lemma EnvelopeLogs(cfg: Config, s: Service, env: Envelope, s': Service)
    requires Received(cfg, s, env, s')
    ensures s'.detector.log ==
            s.detector.log
              + (if env.from != s.members.self then [Ack(env.from)] else [])
              + (if env.kind.AckFor? && HeardOf(s, env) != s.members.self then [Ack(HeardOf(s, env))] else [])
  {
    hide AddedAll, Refutations, SomeDrained, Cleared, ApplyAll;
    var (d, ms) := Heard(s, env);
    var q :| && AddedAll(s.queue, Refutations(ms, env.gossip), q)
             && Replied(cfg, s.(detector := d, members := ApplyAll(ms, env.gossip), queue := q), env, s');
    ApplyKeepsSelf(ms, env.gossip);
    HeardKeepsSelf(s, env);
    assert d.log + [] == d.log && s.detector.log + [] == s.detector.log;
  }

  lemma {:induction false} ApplyKeepsSelf(ms: Members, us: seq<Update>)
    ensures ApplyAll(ms, us).self == ms.self
    decreases |us|
  {
    if us != [] { ApplyKeepsSelf(ms, us[..|us| - 1]); }
  }

  /** What the updates about `id` make of what is known of it, in the order they come. */
  ghost function Told(known: Option<Member>, us: seq<Update>, id: NodeId): Option<Member>
  {
    if us == [] then known else
      var earlier, u := Told(known, us[..|us| - 1], id), us[|us| - 1];
      if u.node == id then Merged(earlier, u) else earlier
  }

  /** Gossip about another node is merged, update by update, into what is known of it, and
      does not touch anybody else. */
  lemma {:induction false} GossipIsLearned(ms: Members, us: seq<Update>, id: NodeId)
    requires id != ms.self
    ensures Known(ApplyAll(ms, us), id) == Told(Known(ms, id), us, id)
    decreases |us|
  {
    if us != [] {
      GossipIsLearned(ms, us[..|us| - 1], id);
      ApplyKeepsSelf(ms, us[..|us| - 1]);
    }
  }

  /** Hearing from a node lists it, as Alive at incarnation zero if it was unknown, and
      holds nothing against it. */
  lemma SenderIsListed(s: Service, env: Envelope)
    requires env.from != s.members.self
    ensures var (d, ms) := Heard(s, env);
            && env.from in ms.list && ms.list[env.from].state != Suspect && env.from !in d.suspect && Failed(d, env.from) == 0
            && (env.from !in s.members.list ==> ms.list[env.from] == Member(env.fromAddr, Alive, 0, None))
  {
  }

  /** After an envelope its sender and whom it acknowledges are clear of suspicion timers,
      and the sender is listed. */
  lemma SignsOfLifeCount(cfg: Config, s: Service, env: Envelope, s': Service)
    requires Received(cfg, s, env, s')
    ensures env.from != s.members.self ==> env.from in s'.members.list && env.from !in s'.detector.suspect
    ensures env.kind.AckFor? && HeardOf(s, env) != s.members.self ==>
              HeardOf(s, env) !in s'.detector.suspect && Failed(s'.detector, HeardOf(s, env)) == 0
  {
    hide AddedAll, Refutations, SomeDrained, Heard, ApplyAll, SwimRuns.Healthy, Fresher;
    var (d, ms) := Heard(s, env);
    var q :| && AddedAll(s.queue, Refutations(ms, env.gossip), q)
             && Replied(cfg, s.(detector := d, members := ApplyAll(ms, env.gossip), queue := q), env, s');
    ApplyKeepsSelf(ms, env.gossip);
    HeardKeepsSelf(s, env);
    if env.from != s.members.self {
      SenderIsListed(s, env);
      ApplyAllPeers(ms, env.gossip, env.from);
      SwimRuns.ReplyKeepsPeer(cfg, s.(detector := d, members := ApplyAll(ms, env.gossip), queue := q), env, s', env.from);
    }
  }

  lemma HeardKeepsSelf(s: Service, env: Envelope)
    ensures Heard(s, env).1.self == s.members.self
  {
  }

  ghost predicate RelayKept(s: Service, env: Envelope, target: NodeId, key: Word, s': Service)
  {
    s'.relays == s.relays[key := Relay(env.from, env.fromAddr, env.seqNo, target)]
  }

  /** Relays: a request to probe somebody is remembered with who asked, and exactly the
      direct ack that carries its number closes it. */
  lemma RelaysChange(cfg: Config, s: Service, env: Envelope, s': Service)
    requires Received(cfg, s, env, s')
    ensures match env.kind
            case Ping => s'.relays == s.relays
            case AckFor(about) => s'.relays == if about == None then s.relays - {env.seqNo} else s.relays
            case PingReq(target, _) => exists key :: RelayKept(s, env, target, key, s')
  {
    hide AddedAll, Refutations, SomeDrained, Heard, ApplyAll, RecordAck;
    var (d, ms) := Heard(s, env);
    var q :| && AddedAll(s.queue, Refutations(ms, env.gossip), q)
             && Replied(cfg, s.(detector := d, members := ApplyAll(ms, env.gossip), queue := q), env, s');
    if env.kind.PingReq? {
      var key :| s' == Relaying(s.(detector := d, members := ApplyAll(ms, env.gossip), queue := q), env, env.kind.target, key);
      assert RelayKept(s, env, env.kind.target, key, s');
    } else if env.kind.AckFor? && env.seqNo !in s.relays {
      assert s.relays - {env.seqNo} == s.relays;
    }
  }
}

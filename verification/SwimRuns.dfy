/** Safety of the SWIM service over every run: any seeds, periods and envelopes,
    whatever the envelopes claim. */
module SwimRuns {
  import opened Values
  import opened SwimMembers
  import opened SwimDetector
  import opened SwimGossip
  import opened SwimService

  ghost predicate IsRun(cfg: Config, ss: seq<Service>, actions: seq<Action>)
  {
    && |ss| == |actions| + 1
    && (exists id, addr, cert :: ss[0] == Fresh(id, addr, cert))
    && forall i :: 0 <= i < |actions| ==> SwimService.Next(cfg, ss[i], actions[i], ss[i + 1])
  }

  // ---------------------------------------------------------------------------
  // Invariant
  // ---------------------------------------------------------------------------

  /** What is queued about the node itself is an Alive it once stood for. */
  predicate OwnPending(q: Queue, self: NodeId, hi: Word)
  {
    self in q.pending ==> q.pending[self].update.AliveUpdate? && q.pending[self].update.incarnation <= hi
  }

  ghost predicate Healthy(cfg: Config, s: Service)
  {
    && SelfAlive(s.members)
    && Unsuspecting(s.detector, s.members.self)
    && s.probe != Some(s.members.self)
    && Sound(s.queue) && OwnPending(s.queue, s.members.self, s.members.incarnation)
    && Justified(cfg, s.detector)
  }

  /** News that may be queued at a node: about others, or its own Alive. */
  predicate Proper(u: Update, self: NodeId, hi: Word)
  {
    u.node == self ==> u.AliveUpdate? && u.incarnation <= hi
  }

  predicate AllProper(us: seq<Update>, self: NodeId, hi: Word)
  {
    forall i :: 0 <= i < |us| ==> Proper(us[i], self, hi)
  }

  lemma AddKeepsOwn(q: Queue, u: Update, q': Queue, self: NodeId, hi: Word)
    requires Sound(q) && Added(q, u, q') && OwnPending(q, self, hi) && Proper(u, self, hi)
    ensures Sound(q') && OwnPending(q', self, hi)
  {
    AddKeepsSound(q, u, q');
    if self in q.pending && self in q'.pending {
      assert Step(q, Add(u), q');
      StepSupersedes(q, Add(u), q', self);
    } else {
      assert Step(q, Add(u), q');
      if self !in q.pending { StepEnters(q, Add(u), q', self); }
    }
  }

  lemma {:induction false} AddedViaKeepsOwn(q: Queue, us: seq<Update>, q': Queue, qs: seq<Queue>, k: nat, self: NodeId, hi: Word)
    requires Sound(q) && AddedVia(q, us, q', qs) && k <= |us| && OwnPending(q, self, hi)
    requires AllProper(us, self, hi)
    ensures Sound(qs[k]) && OwnPending(qs[k], self, hi)
    decreases k
  {
    if k > 0 {
      AddedViaKeepsOwn(q, us, q', qs, k - 1, self, hi);
      hide Added, Sound, OwnPending, Proper;
      assert Added(qs[k - 1], us[k - 1], qs[k - 1 + 1]);
      AddKeepsOwn(qs[k - 1], us[k - 1], qs[k], self, hi);
    }
  }

  lemma AddedAllKeepsOwn(q: Queue, us: seq<Update>, q': Queue, self: NodeId, hi: Word)
    requires Sound(q) && AddedAll(q, us, q') && OwnPending(q, self, hi)
    requires AllProper(us, self, hi)
    ensures Sound(q') && OwnPending(q', self, hi)
  {
    var qs :| AddedVia(q, us, q', qs);
    AddedViaKeepsOwn(q, us, q', qs, |us|, self, hi);
  }

  lemma DrainKeepsOwn(q: Queue, max: nat, q': Queue, self: NodeId, hi: Word)
    requires Sound(q) && SomeDrained(q, max, q') && OwnPending(q, self, hi)
    ensures Sound(q') && OwnPending(q', self, hi)
  {
    assert Step(q, Drain(max), q');
    StepKeepsSound(q, Drain(max), q');
    if self in q.pending && self in q'.pending {
      StepSupersedes(q, Drain(max), q', self);
    } else if self !in q.pending {
      StepEnters(q, Drain(max), q', self);
    }
  }

  /** A refutation added over an older Alive of the same node takes its place. */
  lemma OwnAddTakesOver(q: Queue, u: Update, q': Queue, self: NodeId)
    requires Sound(q) && Added(q, u, q') && u.AliveUpdate? && u.node == self
    requires OwnPending(q, self, u.incarnation)
    ensures Sound(q') && self in q'.pending && q'.pending[self].update == u
  {
    AddKeepsSound(q, u, q');
  }

  lemma {:induction false} LastClaimQueued(q: Queue, rs: seq<Update>, q': Queue, qs: seq<Queue>, k: nat, self: NodeId, lo: Word, hi: Word)
    requires Sound(q) && AddedVia(q, rs, q', qs) && 0 < k <= |rs|
    requires OwnPending(q, self, lo) && OwnClaims(rs, self, lo, hi)
    ensures Sound(qs[k]) && self in qs[k].pending && qs[k].pending[self].update == rs[k - 1]
    decreases k
  {
    hide Added, Sound;
    if k > 1 {
      LastClaimQueued(q, rs, q', qs, k - 1, self, lo, hi);
    }
    assert Added(qs[k - 1], rs[k - 1], qs[k - 1 + 1]);
    OwnAddTakesOver(qs[k - 1], rs[k - 1], qs[k], self);
  }

  // ---------------------------------------------------------------------------
  // A challenged node answers
  // ---------------------------------------------------------------------------

  lemma HeardSparesSelf(s: Service, env: Envelope)
    requires SelfAlive(s.members) && Unsuspecting(s.detector, s.members.self)
    ensures var (d, ms) := Heard(s, env); Spared(s.members, d, ms)
  {
  }

  /** Once an envelope's gossip has been merged, for every rumour in it that the
      node is suspect, dead or gone, not stale when the envelope came, the node's
      current Alive is queued; it outranks the rumour exactly when the rumour is
      below the largest incarnation. */
  lemma ChallengeIsAnswered(cfg: Config, s: Service, env: Envelope, q: Queue, rumour: Update)
    requires Healthy(cfg, s)
    requires AddedAll(s.queue, Refutations(Heard(s, env).1, env.gossip), q)
    requires rumour in env.gossip && Hostile(rumour, s.members.self) && rumour.incarnation >= s.members.incarnation
    ensures var ms := ApplyAll(Heard(s, env).1, env.gossip);
            && s.members.self in q.pending && q.pending[s.members.self].update == OwnAlive(ms)
            && (ms.incarnation > rumour.incarnation <==> rumour.incarnation < U64_MAX)
  {
    hide AddedVia, Heard, SelfAlive, Sound, Justified, OwnClaims, ApplyAll, Refutations;
    HeardSparesSelf(s, env);
    var ms := Heard(s, env).1;
    var rs, self := Refutations(ms, env.gossip), ms.self;
    RefutationsAreOwn(ms, env.gossip);
    RumoursOutlived(ms, env.gossip);
    assert Challenged(ms, env.gossip);
    var qs :| AddedVia(s.queue, rs, q, qs);
    LastClaimQueued(s.queue, rs, q, qs, |rs|, self, ms.incarnation, ApplyAll(ms, env.gossip).incarnation);
    LastOf(s.queue, rs, q, qs);
  }

  lemma LastOf(q: Queue, us: seq<Update>, q': Queue, qs: seq<Queue>)
    requires AddedVia(q, us, q', qs)
    ensures |qs| == |us| + 1 && qs[|us|] == q'
  {
  }

  // ---------------------------------------------------------------------------
  // Every step keeps the node healthy
  // ---------------------------------------------------------------------------

  lemma ClaimsAreProper(rs: seq<Update>, self: NodeId, lo: Word, hi: Word)
    requires OwnClaims(rs, self, lo, hi)
    ensures AllProper(rs, self, hi)
  {
  }

  lemma HeardJustified(cfg: Config, s: Service, env: Envelope)
    requires Justified(cfg, s.detector)
    ensures Justified(cfg, Heard(s, env).0)
  {
    hide Justified;
    if env.from != s.members.self {
      AckJustified(cfg, s.detector, s.members, env.from);
    }
  }

  /** Merging an envelope's gossip keeps the node healthy. */
  lemma GossipKeepsHealthy(cfg: Config, s: Service, env: Envelope, q: Queue)
    requires Healthy(cfg, s)
    requires AddedAll(s.queue, Refutations(Heard(s, env).1, env.gossip), q)
    ensures var (d, ms) := Heard(s, env);
            var s' := s.(detector := d, members := ApplyAll(ms, env.gossip), queue := q);
            && Healthy(cfg, s') && s'.members.self == s.members.self
            && s'.members.incarnation >= s.members.incarnation
  {
    hide AddedAll, Heard, SelfAlive, Sound, Justified, OwnClaims, ApplyAll, Refutations, AllProper;
    HeardSparesSelf(s, env);
    HeardJustified(cfg, s, env);
    var (d, ms) := Heard(s, env);
    ApplyAllSelf(ms, env.gossip);
    RefutationsAreOwn(ms, env.gossip);
    var hi, rs := ApplyAll(ms, env.gossip).incarnation, Refutations(ms, env.gossip);
    ClaimsAreProper(rs, ms.self, ms.incarnation, hi);
    AddedAllKeepsOwn(s.queue, rs, q, ms.self, hi);
  }

  lemma ReplyKeepsHealthy(cfg: Config, s: Service, env: Envelope, s': Service)
    requires Healthy(cfg, s) && Replied(cfg, s, env, s')
    ensures Healthy(cfg, s') && s'.members.self == s.members.self && s'.members.incarnation == s.members.incarnation
  {
    hide Sound, Justified, RecordAck, SomeDrained, SelfAlive, Unsuspecting;
    match env.kind
    case Ping => DrainKeepsOwn(s.queue, cfg.maxGossip, s'.queue, s.members.self, s.members.incarnation);
    case AckFor(_) =>
      var id := AboutWhom(s, env);
      DetectorSparesSelf(cfg, s.detector, s.members, id, 0);
      AckJustified(cfg, s.detector, s.members, id);
    case PingReq(_, _) =>
  }

  lemma ReceiveKeepsHealthy(cfg: Config, s: Service, env: Envelope, s': Service)
    requires Healthy(cfg, s) && Received(cfg, s, env, s')
    ensures Healthy(cfg, s') && s'.members.self == s.members.self && s'.members.incarnation >= s.members.incarnation
  {
    hide Healthy, Heard, Replied, AddedAll, ApplyAll, Refutations;
    var (d, ms) := Heard(s, env);
    var q :| && AddedAll(s.queue, Refutations(ms, env.gossip), q)
             && Replied(cfg, s.(detector := d, members := ApplyAll(ms, env.gossip), queue := q), env, s');
    GossipKeepsHealthy(cfg, s, env, q);
    ReplyKeepsHealthy(cfg, s.(detector := d, members := ApplyAll(ms, env.gossip), queue := q), env, s');
  }

  lemma ResolvedSparesSelf(cfg: Config, s: Service, now: nat)
    requires Healthy(cfg, s)
    ensures var (d, ms) := Resolved(cfg, s, now); Spared(s.members, d, ms) && Justified(cfg, d)
  {
    hide Justified, RecordNack, Sound;
    if ProbeFailed(s) {
      DetectorSparesSelf(cfg, s.detector, s.members, s.probe.value, now);
      NackJustified(cfg, s.detector, s.members, s.probe.value, now);
    }
  }

  lemma {:induction false} DeathNewsAbout(ms: Members, ids: seq<NodeId>, self: NodeId, hi: Word)
    requires self !in ids
    ensures AllProper(DeathNews(ms, ids), self, hi)
    decreases |ids|
  {
    if ids != [] {
      DeathNewsAbout(ms, ids[..|ids| - 1], self, hi);
    }
  }

  /** The detector's part of a period spares the node and keeps its records justified. */
  lemma TickDetector(cfg: Config, s: Service, now: nat)
    requires Healthy(cfg, s)
    ensures var (d1, m1) := Resolved(cfg, s, now);
            var (d2, m2) := Expire(d1, m1, cfg, now);
            var (d3, m3) := Remove(d2, m2, cfg, now);
            && Spared(s.members, d3, m3) && Justified(cfg, d3)
            && s.members.self !in ExpiredSuspects(d1, cfg, now)
  {
    hide Justified, SelfAlive, Sound;
    ResolvedSparesSelf(cfg, s, now);
    var (d1, m1) := Resolved(cfg, s, now);
    DetectorSparesSelf(cfg, d1, m1, s.members.self, now);
    ExpireJustified(cfg, d1, m1, now);
    var (d2, m2) := Expire(d1, m1, cfg, now);
    DetectorSparesSelf(cfg, d2, m2, s.members.self, now);
    RemoveJustified(cfg, d2, m2, now);
  }

  lemma RemoveJustified(cfg: Config, d: Detector, ms: Members, now: nat)
    requires Justified(cfg, d)
    ensures Justified(cfg, Remove(d, ms, cfg, now).0)
  {
  }

  lemma NewsIsProper(s: Service, m1: Members, m2: Members, dead: seq<NodeId>, hi: Word)
    requires s.probe != Some(s.members.self) && s.members.self !in dead
    ensures AllProper(SuspicionNews(s, m1) + DeathNews(m2, dead), s.members.self, hi)
  {
    DeathNewsAbout(m2, dead, s.members.self, hi);
    var a, b := SuspicionNews(s, m1), DeathNews(m2, dead);
    forall i | 0 <= i < |a + b| ensures Proper((a + b)[i], s.members.self, hi) {
      assert i >= |a| ==> (a + b)[i] == b[i - |a|];
    }
  }

  lemma TickKeepsHealthy(cfg: Config, s: Service, now: nat, dead: seq<NodeId>, removed: seq<NodeId>, s': Service)
    requires Healthy(cfg, s) && Ticked(cfg, s, now, dead, removed, s')
    ensures Healthy(cfg, s') && s'.members.self == s.members.self && s'.members.incarnation == s.members.incarnation
  {
    hide Justified, Sound, AddedAll, Expire, Remove, Resolved, SomeDrained, SelfAlive, SuspicionNews, DeathNews, AllProper,
         ExpiredSuspects;
    TickDetector(cfg, s, now);
    var (d1, m1) := Resolved(cfg, s, now);
    var (d2, m2) := Expire(d1, m1, cfg, now);
    var us := SuspicionNews(s, m1) + DeathNews(m2, dead);
    var q :| AddedAll(s.queue, us, q) && Probing(cfg, s'.members, q, s.acked, s');
    var self, hi := s.members.self, s.members.incarnation;
    assert self !in Ids(dead);
    NewsIsProper(s, m1, m2, dead, hi);
    AddedAllKeepsOwn(s.queue, us, q, self, hi);
    if s'.probe.Some? {
      DrainKeepsOwn(q, cfg.maxGossip, s'.queue, self, hi);
    }
  }

  lemma NextKeepsHealthy(cfg: Config, s: Service, a: Action, s': Service)
    requires Healthy(cfg, s) && SwimService.Next(cfg, s, a, s')
    ensures Healthy(cfg, s') && s'.members.self == s.members.self && s'.members.incarnation >= s.members.incarnation
  {
    match a
    case Seed(id, addr) =>
    case Period(now, dead, removed) =>
      hide Healthy, Ticked;
      TickKeepsHealthy(cfg, s, now, dead, removed, s');
    case Receive(env) =>
      hide Healthy, Received;
      ReceiveKeepsHealthy(cfg, s, env, s');
  }

  // ---------------------------------------------------------------------------
  // Self is never lost
  // ---------------------------------------------------------------------------

  lemma {:induction false} AlwaysHealthy(cfg: Config, ss: seq<Service>, actions: seq<Action>, i: nat)
    requires IsRun(cfg, ss, actions) && i <= |actions|
    ensures Healthy(cfg, ss[i]) && ss[i].members.self == ss[0].members.self
    decreases i
  {
    if i > 0 {
      AlwaysHealthy(cfg, ss, actions, i - 1);
      hide Healthy, SwimService.Next;
      assert SwimService.Next(cfg, ss[i - 1], actions[i - 1], ss[i - 1 + 1]);
      NextKeepsHealthy(cfg, ss[i - 1], actions[i - 1], ss[i]);
    }
  }

  /** In every run the node stays in its own list, alive, at its own incarnation,
      which never goes back; it never probes or suspects itself. */
  lemma {:induction false} SelfNeverLost(cfg: Config, ss: seq<Service>, actions: seq<Action>, i: nat, j: nat)
    requires IsRun(cfg, ss, actions) && i <= j <= |actions|
    ensures var ms := ss[j].members;
            && ms.self == ss[i].members.self && ms.self in ms.list
            && ms.list[ms.self].state == Alive && ms.list[ms.self].incarnation == ms.incarnation
            && ms.incarnation >= ss[i].members.incarnation
            && Unsuspecting(ss[j].detector, ms.self) && ss[j].probe != Some(ms.self)
    decreases j
  {
    hide SwimService.Next, Justified, Sound;
    AlwaysHealthy(cfg, ss, actions, j);
    if i < j {
      SelfNeverLost(cfg, ss, actions, i, j - 1);
      AlwaysHealthy(cfg, ss, actions, j - 1);
      assert SwimService.Next(cfg, ss[j - 1], actions[j - 1], ss[j - 1 + 1]);
      NextKeepsHealthy(cfg, ss[j - 1], actions[j - 1], ss[j]);
    }
  }

  // ---------------------------------------------------------------------------
  // Death needs evidence
  // ---------------------------------------------------------------------------

  /** In every run, a node declared dead in a period had enough failed probes, the
      threshold was reached at least the suspicion timeout before, and no sign of
      life came since. The node never declares itself dead. */
  lemma DeathNeedsEvidenceInRuns(cfg: Config, ss: seq<Service>, actions: seq<Action>, i: nat, id: NodeId)
    requires IsRun(cfg, ss, actions) && i < |actions| && actions[i].Period? && id in actions[i].dead
    ensures id != ss[i].members.self
    ensures Evidence(cfg, Resolved(cfg, ss[i], actions[i].now).0.log, id, actions[i].now)
  {
    hide Healthy, Justified, Evidence, Expire, Remove, Resolved, AddedAll, Probing, ExpiredSuspects;
    AlwaysHealthy(cfg, ss, actions, i);
    assert SwimService.Next(cfg, ss[i], actions[i], ss[i + 1]);
    var now := actions[i].now;
    TickDetector(cfg, ss[i], now);
    var (d1, m1) := Resolved(cfg, ss[i], now);
    assert id in Ids(actions[i].dead);
    ResolvedSparesSelf(cfg, ss[i], now);
    SwimDetector.DeathNeedsEvidence(cfg, d1, now, id);
  }

  // ---------------------------------------------------------------------------
  // Peers never go back
  // ---------------------------------------------------------------------------

  /** Some envelope among the actions vouches for `id` at a higher incarnation than `i`. */
  ghost predicate VouchedIn(actions: seq<Action>, id: NodeId, i: Word)
  {
    exists k :: 0 <= k < |actions| && VouchedBy(actions[k], id, i)
  }

  ghost predicate VouchedBy(a: Action, id: NodeId, i: Word)
  {
    a.Receive? && Vouched(a.env.gossip, id, i)
  }

  lemma HeardKeepsPeer(s: Service, env: Envelope, p: NodeId)
    requires p in s.members.list
    ensures var (d, ms) := Heard(s, env);
            && ms.self == s.members.self && p in ms.list && Fresher(s.members.list[p], ms.list[p])
            && ms.list[p].incarnation == s.members.list[p].incarnation
            && (s.members.list[p].state == Dead ==> ms.list[p].state == Dead)
  {
  }

  lemma ReplyKeepsPeer(cfg: Config, s: Service, env: Envelope, s': Service, p: NodeId)
    requires Replied(cfg, s, env, s') && p in s.members.list
    ensures s'.members.self == s.members.self && p in s'.members.list
    ensures Fresher(s.members.list[p], s'.members.list[p])
    ensures s.members.list[p].state == Dead ==> s'.members.list[p].state == Dead
  {
    hide SomeDrained;
  }

  lemma ReceivePeer(cfg: Config, s: Service, env: Envelope, s': Service, p: NodeId)
    requires Received(cfg, s, env, s') && p in s.members.list && p != s.members.self
    ensures p in s'.members.list && s'.members.self == s.members.self
    ensures Fresher(s.members.list[p], s'.members.list[p])
    ensures s.members.list[p].state == Dead && s'.members.list[p].state != Dead ==>
              Vouched(env.gossip, p, s.members.list[p].incarnation)
  {
    hide Heard, AddedAll, ApplyAll, Refutations, Replied, Vouched;
    var (d, ms) := Heard(s, env);
    var q :| && AddedAll(s.queue, Refutations(ms, env.gossip), q)
             && Replied(cfg, s.(detector := d, members := ApplyAll(ms, env.gossip), queue := q), env, s');
    HeardKeepsPeer(s, env, p);
    ApplyAllPeers(ms, env.gossip, p);
    ReplyKeepsPeer(cfg, s.(detector := d, members := ApplyAll(ms, env.gossip), queue := q), env, s', p);
  }

  lemma TickPeer(cfg: Config, s: Service, now: nat, dead: seq<NodeId>, removed: seq<NodeId>, s': Service, p: NodeId)
    requires Ticked(cfg, s, now, dead, removed, s') && p in s.members.list && p in s'.members.list
    ensures Fresher(s.members.list[p], s'.members.list[p]) && s'.members.self == s.members.self
    ensures s.members.list[p].state == Dead ==> s'.members.list[p].state == Dead
  {
    hide AddedAll, Probing, ExpiredSuspects, ExpiredDead, DeadAmong, Bury;
    var (d1, m1) := Resolved(cfg, s, now);
    if ProbeFailed(s) { DetectorKeepsFresher(cfg, s.detector, s.members, s.probe.value, now, p); }
    DetectorKeepsFresher(cfg, d1, m1, p, now, p);
    var (d2, m2) := Expire(d1, m1, cfg, now);
    DetectorKeepsFresher(cfg, d2, m2, p, now, p);
  }

  lemma PeerStep(cfg: Config, s: Service, a: Action, s': Service, p: NodeId)
    requires SwimService.Next(cfg, s, a, s') && (a.Seed? ==> a.id != p) && p != s.members.self
    requires p in s.members.list && p in s'.members.list
    ensures s'.members.self == s.members.self && Fresher(s.members.list[p], s'.members.list[p])
    ensures s.members.list[p].state == Dead && s'.members.list[p].state != Dead ==>
              VouchedBy(a, p, s.members.list[p].incarnation)
  {
    hide Ticked, Received;
    match a
    case Seed(_, _) =>
    case Period(now, dead, removed) => TickPeer(cfg, s, now, dead, removed, s', p);
    case Receive(env) => ReceivePeer(cfg, s, env, s', p);
  }

  /** The stretch of a run in which peer `p` stays listed and is not added as a seed. */
  ghost predicate ListedThroughout(ss: seq<Service>, actions: seq<Action>, p: NodeId, i: nat, j: nat)
  {
    && i <= j <= |actions| && |ss| == |actions| + 1
    && (forall k :: i <= k <= j ==> p in ss[k].members.list)
    && (forall k :: i <= k < j && actions[k].Seed? ==> actions[k].id != p)
  }

  /** What became of a peer over some actions: nothing older, and no return from the
      dead that was not vouched for. */
  ghost predicate Progress(m: Option<Member>, m': Option<Member>, actions: seq<Action>, p: NodeId)
  {
    m.Some? && m'.Some? && Fresher(m.value, m'.value) &&
    (m.value.state == Dead && m'.value.state != Dead ==> VouchedIn(actions, p, m.value.incarnation))
  }

  lemma ProgressChain(a: Option<Member>, b: Option<Member>, c: Option<Member>, actions: seq<Action>, p: NodeId, i: nat, j: nat)
    requires i < j <= |actions| && Progress(a, b, actions[i..j - 1], p)
    requires c.Some? && Fresher(b.value, c.value)
    requires b.value.state == Dead && c.value.state != Dead ==> VouchedBy(actions[j - 1], p, b.value.incarnation)
    ensures Progress(a, c, actions[i..j], p)
  {
    hide VouchedBy, VouchedIn;
    VouchedLater(actions, p, a.value.incarnation, b.value.incarnation, i, j);
  }

  lemma {:induction false} PeerProgress(cfg: Config, ss: seq<Service>, actions: seq<Action>, p: NodeId, i: nat, j: nat)
    requires IsRun(cfg, ss, actions) && ListedThroughout(ss, actions, p, i, j) && p != ss[0].members.self
    ensures Progress(Known(ss[i].members, p), Known(ss[j].members, p), actions[i..j], p)
    decreases j
  {
    hide IsRun, ListedThroughout, Fresher, VouchedBy, Healthy, Progress, SwimService.Next;
    ListedRange(ss, actions, p, i, j);
    if i < j {
      RunPrefix(cfg, ss, actions, j - 1);
      ListedUntil(ss, actions, p, i, j);
      AlwaysHealthy(cfg, ss, actions, j - 1);
      PeerProgress(cfg, ss, actions, p, i, j - 1);
      var s, a, s' := ss[j - 1], actions[j - 1], ss[j];
      PeerStep(cfg, s, a, s', p);
      ProgressChain(Known(ss[i].members, p), Known(s.members, p), Known(s'.members, p), actions, p, i, j);
    } else {
      ListedAt(ss, actions, p, i);
    }
  }

  lemma ListedRange(ss: seq<Service>, actions: seq<Action>, p: NodeId, i: nat, j: nat)
    requires ListedThroughout(ss, actions, p, i, j)
    ensures i <= j <= |actions| && |ss| == |actions| + 1
  {
  }

  lemma ListedAt(ss: seq<Service>, actions: seq<Action>, p: NodeId, i: nat)
    requires ListedThroughout(ss, actions, p, i, i)
    ensures Progress(Known(ss[i].members, p), Known(ss[i].members, p), actions[i..i], p)
  {
  }

  /** While a peer stays listed, over any number of periods and envelopes, its
      incarnation never goes back, and it leaves Dead only for a strictly higher
      incarnation that some envelope vouched for. */
  lemma PeersNeverGoBack(cfg: Config, ss: seq<Service>, actions: seq<Action>, p: NodeId, i: nat, j: nat)
    requires IsRun(cfg, ss, actions) && ListedThroughout(ss, actions, p, i, j) && p != ss[0].members.self
    ensures Fresher(ss[i].members.list[p], ss[j].members.list[p])
    ensures ss[i].members.list[p].state == Dead && ss[j].members.list[p].state != Dead ==>
              VouchedIn(actions[i..j], p, ss[i].members.list[p].incarnation)
  {
    hide IsRun, Fresher, VouchedIn;
    PeerProgress(cfg, ss, actions, p, i, j);
  }

  lemma ListedUntil(ss: seq<Service>, actions: seq<Action>, p: NodeId, i: nat, j: nat)
    requires ListedThroughout(ss, actions, p, i, j) && i < j
    ensures j <= |actions| && |ss| == |actions| + 1 && ListedThroughout(ss, actions, p, i, j - 1)
    ensures p in ss[j - 1].members.list && p in ss[j].members.list
    ensures actions[j - 1].Seed? ==> actions[j - 1].id != p
  {
  }

  lemma RunPrefix(cfg: Config, ss: seq<Service>, actions: seq<Action>, k: nat)
    requires IsRun(cfg, ss, actions) && k < |actions|
    ensures |ss| == |actions| + 1 && SwimService.Next(cfg, ss[k], actions[k], ss[k + 1])
  {
  }

  lemma VouchedLater(actions: seq<Action>, p: NodeId, lo: Word, hi: Word, i: nat, j: nat)
    requires i < j <= |actions| && lo <= hi
    ensures VouchedIn(actions[i..j - 1], p, lo) || VouchedBy(actions[j - 1], p, hi) ==> VouchedIn(actions[i..j], p, lo)
  {
    var a := actions[i..j];
    assert a[|a| - 1] == actions[j - 1] && a[..|a| - 1] == actions[i..j - 1];
    if VouchedIn(actions[i..j - 1], p, lo) {
      var k :| 0 <= k < |actions[i..j - 1]| && VouchedBy(actions[i..j - 1][k], p, lo);
      assert VouchedBy(a[k], p, lo);
    }
    if VouchedBy(actions[j - 1], p, hi) {
      assert VouchedBy(a[|a| - 1], p, lo);
    }
  }

  /** Adding a seed forgets what is known of it: a listed peer is not set back if
      and only if it was known at incarnation zero and not dead. */
  lemma SeedSetsBackIff(s: Service, id: NodeId, addr: Addr)
    requires id != s.members.self && id in s.members.list
    ensures var m := s.members.list[id];
            Fresher(m, Seeded(s, id, addr).members.list[id]) <==> m.incarnation == 0 && m.state != Dead
  {
  }

  /** A peer known dead is brought back at incarnation zero by adding it as a seed. */
  lemma SeedRevivesTheDead(s: Service, id: NodeId, addr: Addr)
    requires id != s.members.self && id in s.members.list && s.members.list[id].state == Dead
    ensures Seeded(s, id, addr).members.list[id] == Member(addr, Alive, 0, None)
  {
  }
}

/** The SWIM service: membership, detector and gossip queue driven by periods and
    by inbound envelopes. Random choices are left open. */
module SwimService {
  import opened Values
  import opened SwimMembers
  import opened SwimDetector
  import opened SwimGossip

  datatype Relay = Relay(origin: NodeId, originAddr: Addr, originSeq: Word, target: NodeId)

  datatype Kind = Ping | AckFor(about: Option<NodeId>) | PingReq(target: NodeId, targetAddr: Addr)

  datatype Envelope = Envelope(from: NodeId, fromAddr: Addr, seqNo: Word, kind: Kind, gossip: seq<Update>)

  datatype Service = Service(
    members: Members,
    detector: Detector,
    queue: Queue,
    probe: Option<NodeId>,
    acked: bool,
    relays: map<Word, Relay>)

  function Fresh(id: NodeId, addr: Addr, cert: Cert): Service
  {
    Service(WithSelf(id, addr, cert), Detector(map[], map[], map[], []),
            Queue(map[], DEFAULT_MAX_ENTRIES, DEFAULT_BUDGET), None, false, map[])
  }

  // ---------------------------------------------------------------------------
  // Steps
  // ---------------------------------------------------------------------------

  function Seeded(s: Service, id: NodeId, addr: Addr): Service
  {
    if id == s.members.self then s
    else s.(members := s.members.(list := s.members.list[id := NewMember(addr)]))
  }

  predicate ProbeFailed(s: Service)
  {
    s.probe.Some? && !s.acked
  }

  /** Count the previous period's probe as failed, if nothing answered it. */
  function Resolved(cfg: Config, s: Service, now: nat): (Detector, Members)
  {
    if ProbeFailed(s) then RecordNack(s.detector, s.members, cfg, s.probe.value, now) else (s.detector, s.members)
  }

  function SuspicionNews(s: Service, ms: Members): seq<Update>
  {
    if ProbeFailed(s) && s.probe.value in ms.list && ms.list[s.probe.value].state == Suspect
    then [SuspectUpdate(s.probe.value, ms.list[s.probe.value].addr, ms.list[s.probe.value].incarnation)] else []
  }

  function DeathNews(ms: Members, ids: seq<NodeId>): seq<Update>
  {
    if ids == [] then [] else
      var earlier, id := DeathNews(ms, ids[..|ids| - 1]), ids[|ids| - 1];
      if id in ms.list then earlier + [DeadUpdate(id, ms.list[id].addr, ms.list[id].incarnation)] else earlier
  }

  function Candidates(ms: Members): set<NodeId>
  {
    set id | id in ms.list && id != ms.self && ms.list[id].state != Dead
  }

  ghost predicate Ticked(cfg: Config, s: Service, now: nat, dead: seq<NodeId>, removed: seq<NodeId>, s': Service)
  {
    var (d1, m1) := Resolved(cfg, s, now);
    var (d2, m2) := Expire(d1, m1, cfg, now);
    var (d3, m3) := Remove(d2, m2, cfg, now);
    && Ids(dead) == ExpiredSuspects(d1, cfg, now) && Ids(removed) == DeadAmong(m2, ExpiredDead(d2, cfg, now))
    && s'.members == m3 && s'.detector == d3 && s'.relays == s.relays
    && exists q ::
         && AddedAll(s.queue, SuspicionNews(s, m1) + DeathNews(m2, dead), q)
         && Probing(cfg, m3, q, s.acked, s')
  }

  /** Some peer that is not dead is probed next, carrying gossip; with no such peer
      nothing is sent. */
  ghost predicate Probing(cfg: Config, ms: Members, q: Queue, acked: bool, s': Service)
  {
    if Candidates(ms) == {} then s'.probe == None && s'.acked == acked && s'.queue == q
    else s'.probe.Some? && s'.probe.value in Candidates(ms) && !s'.acked && SomeDrained(q, cfg.maxGossip, s'.queue)
  }

  ghost predicate SomeDrained(q: Queue, max: nat, q': Queue)
  {
    exists out :: Drained(q, max, out, q')
  }

  /** Hearing from a node is a sign of life. */
  function Heard(s: Service, env: Envelope): (Detector, Members)
  {
    if env.from == s.members.self then (s.detector, s.members) else
      var ms := if env.from in s.members.list then s.members
                else s.members.(list := s.members.list[env.from := NewMember(env.fromAddr)]);
      RecordAck(s.detector, ms, env.from)
  }

  function Confirmed(d: Detector, ms: Members, id: NodeId): (Detector, Members)
  {
    if id == ms.self then (d, ms) else RecordAck(d, ms, id)
  }

  ghost predicate Received(cfg: Config, s: Service, env: Envelope, s': Service)
  {
    var (d, ms) := Heard(s, env);
    exists q ::
      && AddedAll(s.queue, Refutations(ms, env.gossip), q)
      && Replied(cfg, s.(detector := d, members := ApplyAll(ms, env.gossip), queue := q), env, s')
  }

  predicate ClosesRelay(s: Service, env: Envelope)
  {
    env.kind.AckFor? && env.kind.about == None && env.seqNo in s.relays
  }

  function AboutWhom(s: Service, env: Envelope): NodeId
    requires env.kind.AckFor?
  {
    if ClosesRelay(s, env) then s.relays[env.seqNo].target
    else if env.kind.about.Some? then env.kind.about.value else env.from
  }

  ghost predicate Replied(cfg: Config, s: Service, env: Envelope, s': Service)
  {
    match env.kind
    case Ping => s' == s.(queue := s'.queue) && SomeDrained(s.queue, cfg.maxGossip, s'.queue)
    case AckFor(_) =>
      var id := AboutWhom(s, env);
      var (d, ms) := Confirmed(s.detector, s.members, id);
      if ClosesRelay(s, env) then s' == s.(detector := d, members := ms, relays := s.relays - {env.seqNo})
      else s' == s.(detector := d, members := ms, acked := s.acked || s.probe == Some(id))
    case PingReq(target, _) =>
      exists key :: s' == Relaying(s, env, target, key)
  }

  function Relaying(s: Service, env: Envelope, target: NodeId, key: Word): Service
  {
    s.(relays := s.relays[key := Relay(env.from, env.fromAddr, env.seqNo, target)])
  }

  datatype Action = Seed(id: NodeId, addr: Addr) | Period(now: nat, dead: seq<NodeId>, removed: seq<NodeId>) | Receive(env: Envelope)

  ghost predicate Next(cfg: Config, s: Service, a: Action, s': Service)
  {
    match a
    case Seed(id, addr) => s' == Seeded(s, id, addr)
    case Period(now, dead, removed) => Ticked(cfg, s, now, dead, removed, s')
    case Receive(env) => Received(cfg, s, env, s')
  }

  // ---------------------------------------------------------------------------
  // The service
  // ---------------------------------------------------------------------------

  lemma DeathNewsSnoc(ms: Members, ids: seq<NodeId>, k: nat)
    requires k < |ids|
    ensures DeathNews(ms, ids[..k + 1]) == DeathNews(ms, ids[..k]) +
              if ids[k] in ms.list then [DeadUpdate(ids[k], ms.list[ids[k]].addr, ms.list[ids[k]].incarnation)] else []
  {
    assert ids[..k + 1][..k] == ids[..k];
  }

  lemma ApplySnoc(ms: Members, us: seq<Update>, k: nat)
    requires k < |us|
    ensures var (ms', r) := Apply(ApplyAll(ms, us[..k]), us[k]);
            && ApplyAll(ms, us[..k + 1]) == ms'
            && Refutations(ms, us[..k + 1]) == Refutations(ms, us[..k]) + if r.Some? then [r.value] else []
  {
    assert us[..k + 1][..k] == us[..k];
  }

  lemma AddedNone(q: Queue)
    ensures AddedAll(q, [], q)
  {
    assert AddedVia(q, [], q, [q]);
  }

  class SwimNode {
    const config: Config
    const members: MembershipList
    const detector: FailureDetector
    const gossip: GossipQueue
    var nextSeq: Word
    var probeTarget: Option<NodeId>
    var probeAcked: bool
    var relays: map<Word, Relay>

    ghost function View(): Service
      reads this, members, detector, gossip
    {
      Service(members.View(), detector.View(), gossip.View(), probeTarget, probeAcked, relays)
    }

    constructor (id: NodeId, addr: Addr, cfg: Config, cert: Cert)
      ensures View() == Fresh(id, addr, cert) && config == cfg
      ensures fresh(members) && fresh(detector) && fresh(gossip)
    {
      config := cfg;
      members := new MembershipList(id, addr, cert);
      detector := new FailureDetector();
      gossip := new GossipQueue();
      nextSeq, probeTarget, probeAcked, relays := 1, None, false, map[];
    }

    method TakeSeq() returns (n: Word)
      modifies this`nextSeq
      ensures n == old(nextSeq)
    {
      n := nextSeq;
      nextSeq := if nextSeq == U64_MAX then 0 else nextSeq + 1;
    }

    method AddSeed(id: NodeId, addr: Addr)
      modifies members
      ensures Next(config, old(View()), Seed(id, addr), View())
    {
      if id == members.selfId {
        return;
      }
      members.Add(id, NewMember(addr));
    }

    method RecordAlive(id: NodeId)
      modifies members, detector
      ensures (detector.View(), members.View()) == Confirmed(old(detector.View()), old(members.View()), id)
    {
      if id == members.selfId {
        return;
      }
      detector.Ack(members, id);
    }

    /** Phase 1 of a period: an unanswered probe counts against its target. */
    method ResolveProbe(now: nat)
      modifies this`probeTarget, members, detector, gossip
      ensures (detector.View(), members.View()) == Resolved(config, old(View()), now)
      ensures AddedAll(old(gossip.View()), SuspicionNews(old(View()), members.View()), gossip.View())
      ensures probeTarget == None
      ensures old(probeTarget).Some? && !old(probeAcked) ==>
                var id := old(probeTarget).value;
                id in members.members && members.members[id].state == Suspect ==>
                  && id in gossip.pending
                  && (|| gossip.pending[id].update.incarnation > members.members[id].incarnation
                      || (&& gossip.pending[id].update.incarnation == members.members[id].incarnation
                          && !gossip.pending[id].update.AliveUpdate?))
    {
      hide Added, RecordNack;
      AddedNone(gossip.View());
      ghost var q := gossip.View();
      var target, acked := probeTarget, probeAcked;
      probeTarget := None;
      if target.Some? && !acked {
        var id := target.value;
        detector.Nack(members, config, id, now);
        if id in members.members && members.members[id].state == Suspect {
          var u := SuspectUpdate(id, members.members[id].addr, members.members[id].incarnation);
          gossip.AddUpdate(u);
          AddSupersedes(q, u, gossip.View());
          AddedAllSnoc(q, [], q, u, gossip.View());
          assert [] + [u] == [u];
        }
      }
    }

    /** Queue the death of a listed node. */
    method SpreadDeath(id: NodeId) returns (ghost u: Update)
      requires id in members.members
      modifies gossip
      ensures u == DeadUpdate(id, members.members[id].addr, members.members[id].incarnation)
      ensures Added(old(gossip.View()), u, gossip.View())
      ensures id in gossip.pending
      ensures || gossip.pending[id].update.incarnation > members.members[id].incarnation
              || (&& gossip.pending[id].update.incarnation == members.members[id].incarnation
                  && (gossip.pending[id].update.DeadUpdate? || gossip.pending[id].update.LeaveUpdate?))
    {
      hide Added;
      var news := DeadUpdate(id, members.members[id].addr, members.members[id].incarnation);
      gossip.AddUpdate(news);
      AddSupersedes(old(gossip.View()), news, gossip.View());
      u := news;
    }

    /** Phase 2 of a period: give up on overdue suspects and spread the news. */
    method DeclareDead(now: nat, ghost q: Queue, ghost news: seq<Update>) returns (newlyDead: seq<NodeId>)
      requires AddedAll(q, news, gossip.View())
      modifies members, detector, gossip
      ensures (detector.View(), members.View()) == Expire(old(detector.View()), old(members.View()), config, now)
      ensures Ids(newlyDead) == ExpiredSuspects(old(detector.View()), config, now)
      ensures AddedAll(q, news + DeathNews(members.View(), newlyDead), gossip.View())
    {
      hide Added, AddedAll, Expire;
      newlyDead := detector.CheckSuspectTimeouts(members, config, now);
      ghost var ms := members.View();
      assert newlyDead[..0] == [] && news + [] == news;
      for k := 0 to |newlyDead|
        invariant (detector.View(), members.View()) == Expire(old(detector.View()), old(members.View()), config, now)
        invariant members.View() == ms
        invariant AddedAll(q, news + DeathNews(ms, newlyDead[..k]), gossip.View())
      {
        var id := newlyDead[k];
        DeathNewsSnoc(ms, newlyDead, k);
        ghost var mid, earlier := gossip.View(), DeathNews(ms, newlyDead[..k]);
        if id in members.members {
          ghost var u := SpreadDeath(id);
          AddedAllSnoc(q, news + earlier, mid, u, gossip.View());
          assert news + earlier + [u] == news + (earlier + [u]);
        } else {
          assert earlier + [] == earlier;
        }
      }
      assert newlyDead[..|newlyDead|] == newlyDead;
    }

    /** Phase 3 of a period: probe a peer that is not dead. */
    method ProbeNext()
      modifies this`probeTarget, this`probeAcked, this`nextSeq, gossip
      requires probeTarget == None
      ensures Probing(config, members.View(), old(gossip.View()), old(probeAcked), View())
    {
      hide Drained;
      var candidates := set id | id in members.members && id != members.selfId && members.members[id].state != Dead;
      if candidates == {} {
        return;
      }
      var target :| target in candidates;
      probeTarget, probeAcked := Some(target), false;
      var sent := gossip.DrainUpdates(config.maxGossip);
      assert SomeDrained(old(gossip.View()), config.maxGossip, gossip.View());
      var _ := TakeSeq();
    }

    method Tick(now: nat) returns (newlyDead: seq<NodeId>, removed: seq<NodeId>)
      modifies this`probeTarget, this`probeAcked, this`nextSeq, members, detector, gossip
      ensures Next(config, old(View()), Period(now, newlyDead, removed), View())
    {
      hide Added, AddedAll, Expire, Remove, RecordNack, Candidates;
      ghost var s := View();
      ResolveProbe(now);
      ghost var m1 := members.View();
      newlyDead := DeclareDead(now, s.queue, SuspicionNews(s, m1));
      removed := detector.RemoveExpiredDead(members, config, now);
      ghost var q := gossip.View();
      ProbeNext();
      assert Probing(config, members.View(), q, s.acked, View());
    }

    /** Merge gossip in the order it came, queueing the refutations it calls for. */
    method ApplyGossip(us: seq<Update>)
      modifies members, gossip
      ensures members.View() == ApplyAll(old(members.View()), us)
      ensures AddedAll(old(gossip.View()), Refutations(old(members.View()), us), gossip.View())
    {
      hide Added, AddedAll, Apply;
      ghost var ms, q := members.View(), gossip.View();
      AddedNone(q);
      assert us[..0] == [];
      for k := 0 to |us|
        invariant members.View() == ApplyAll(ms, us[..k])
        invariant AddedAll(q, Refutations(ms, us[..k]), gossip.View())
      {
        ApplySnoc(ms, us, k);
        ghost var mid := gossip.View();
        var refutation := members.ApplyUpdate(us[k]);
        if refutation.Some? {
          gossip.AddUpdate(refutation.value);
          AddedAllSnoc(q, Refutations(ms, us[..k]), mid, refutation.value, gossip.View());
        } else {
          assert Refutations(ms, us[..k]) + [] == Refutations(ms, us[..k]);
        }
      }
      assert us[..|us|] == us;
    }

    method Hear(from: NodeId, fromAddr: Addr, ghost env: Envelope)
      requires env.from == from && env.fromAddr == fromAddr
      modifies members, detector
      ensures (detector.View(), members.View()) == Heard(old(View()), env)
    {
      if from != members.selfId {
        if from !in members.members {
          members.Add(from, NewMember(fromAddr));
        }
        detector.Ack(members, from);
      }
    }

    method HandleEnvelope(env: Envelope)
      modifies this`probeAcked, this`relays, this`nextSeq, members, detector, gossip
      ensures Next(config, old(View()), Receive(env), View())
    {
      hide AddedAll, ApplyAll, Refutations, Heard, Drained;
      ghost var s := View();
      Hear(env.from, env.fromAddr, env);
      ghost var d, ms := detector.View(), members.View();
      ApplyGossip(env.gossip);
      ghost var q := gossip.View();
      ghost var mid := s.(detector := d, members := ApplyAll(ms, env.gossip), queue := q);
      assert View() == mid;
      Reply(env);
      assert Replied(config, mid, env, View());
    }

    method Reply(env: Envelope)
      modifies this`probeAcked, this`relays, this`nextSeq, members, detector, gossip
      ensures Replied(config, old(View()), env, View())
    {
      hide Drained;
      match env.kind {
        case Ping =>
          var sent := gossip.DrainUpdates(config.maxGossip);
          assert SomeDrained(old(gossip.View()), config.maxGossip, gossip.View());
          var _ := TakeSeq();
        case AckFor(about) =>
          if about.None? && env.seqNo in relays {
            var relay := relays[env.seqNo];
            relays := relays - {env.seqNo};
            RecordAlive(relay.target);
          } else {
            var confirmed := if about.Some? then about.value else env.from;
            RecordAlive(confirmed);
            if probeTarget == Some(confirmed) {
              probeAcked := true;
            }
          }
        case PingReq(target, _) =>
          var key := TakeSeq();
          relays := relays[key := Relay(env.from, env.fromAddr, env.seqNo, target)];
          assert View() == Relaying(old(View()), env, target, key);
      }
    }
  }
}

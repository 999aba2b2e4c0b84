/** Failure detection: failed probes, suspicion timers and removal of the dead.
    Time is a number; a duration to an earlier moment is zero. */
module SwimDetector {
  import opened Values
  import opened SwimMembers

  type ProbeCount = n: nat | n < U64_MAX

  datatype Config = Config(suspectTimeout: nat, deadRemovalDelay: nat, indirectProbes: ProbeCount, maxGossip: nat)

  /** What the detector was told, in order: failed probes, signs of life, and the
      suspicions it gave up on. */
  datatype Event = Nack(id: NodeId, at: nat) | Ack(id: NodeId) | Expiry(ids: set<NodeId>, at: nat)

  datatype Detector = Detector(
    suspect: map<NodeId, nat>,
    dead: map<NodeId, nat>,
    failed: map<NodeId, nat>,
    log: seq<Event>)

  function Elapsed(now: nat, since: nat): (d: nat)
    ensures now > since ==> since + d == now
    ensures now <= since ==> d == 0
  {
    SaturatingSub(now, since)
  }

  function Failed(d: Detector, id: NodeId): nat
  {
    if id in d.failed then d.failed[id] else 0
  }

  function Cleared(ms: Members, id: NodeId): Members
  {
    if id in ms.list && ms.list[id].state == Suspect
    then ms.(list := ms.list[id := ms.list[id].(state := Alive)]) else ms
  }

  function RecordAck(d: Detector, ms: Members, id: NodeId): (Detector, Members)
  {
    (d.(failed := d.failed - {id}, suspect := d.suspect - {id}, log := d.log + [Ack(id)]), Cleared(ms, id))
  }

  function RecordNack(d: Detector, ms: Members, cfg: Config, id: NodeId, now: nat): (Detector, Members)
  {
    var attempts := SaturatingAdd(Failed(d, id), 1);
    var d1 := d.(failed := d.failed[id := attempts], log := d.log + [Nack(id, now)]);
    if attempts >= 1 + cfg.indirectProbes && id in ms.list && ms.list[id].state == Alive then
      var m := ms.list[id];
      (if id in d.suspect then d1 else d1.(suspect := d1.suspect[id := now]),
       ms.(list := ms.list[id := Suspected(m, m.incarnation)]))
    else (d1, ms)
  }

  function ExpiredSuspects(d: Detector, cfg: Config, now: nat): set<NodeId>
  {
    set id | id in d.suspect && Elapsed(now, d.suspect[id]) >= cfg.suspectTimeout
  }

  /** Declare the nodes in `ids` dead at the incarnations they are known at. */
  function Declare(ms: Members, ids: set<NodeId>): Members
  {
    ms.(list := map id | id in ms.list :: if id in ids then Killed(ms.list[id], ms.list[id].incarnation) else ms.list[id])
  }

  function Bury(d: Detector, ids: set<NodeId>, now: nat): Detector
  {
    d.(suspect := d.suspect - ids, failed := d.failed - ids, dead := Stamp(d.dead, ids, now))
  }

  function Stamp(timers: map<NodeId, nat>, ids: set<NodeId>, now: nat): map<NodeId, nat>
  {
    timers + map id | id in ids :: now
  }

  function Expire(d: Detector, ms: Members, cfg: Config, now: nat): (Detector, Members)
  {
    var ids := ExpiredSuspects(d, cfg, now);
    (Bury(d, ids, now).(log := d.log + [Expiry(ids, now)]), Declare(ms, ids))
  }

  function ExpiredDead(d: Detector, cfg: Config, now: nat): set<NodeId>
  {
    set id | id in d.dead && Elapsed(now, d.dead[id]) >= cfg.deadRemovalDelay
  }

  function DeadAmong(ms: Members, ids: set<NodeId>): set<NodeId>
  {
    set id | id in ids && id in ms.list && ms.list[id].state == Dead
  }

  function Remove(d: Detector, ms: Members, cfg: Config, now: nat): (Detector, Members)
  {
    var ids := ExpiredDead(d, cfg, now);
    (d.(dead := d.dead - ids), ms.(list := ms.list - DeadAmong(ms, ids)))
  }

  // ---------------------------------------------------------------------------
  // Evidence
  // ---------------------------------------------------------------------------

  predicate Clears(e: Event, id: NodeId)
  {
    e == Ack(id) || (e.Expiry? && id in e.ids)
  }

  /** Failed probes of `id` since its last sign of life or expiry. */
  function NacksSince(log: seq<Event>, id: NodeId): nat
  {
    if log == [] then 0 else
      var e := log[|log| - 1];
      if Clears(e, id) then 0 else
        NacksSince(log[..|log| - 1], id) + if e.Nack? && e.id == id then 1 else 0
  }

  /** Failed probe number `k` came at `t`, brought the failures to the threshold,
      and nothing has cleared the suspicion since. */
  ghost predicate SuspectedSince(cfg: Config, log: seq<Event>, id: NodeId, t: nat, k: nat)
  {
    && k < |log| && log[k] == Nack(id, t)
    && NacksSince(log[..k + 1], id) >= 1 + cfg.indirectProbes
    && forall j :: k < j < |log| ==> !Clears(log[j], id)
  }

  ghost predicate TimerJustified(cfg: Config, log: seq<Event>, id: NodeId, t: nat)
  {
    exists k :: SuspectedSince(cfg, log, id, t, k)
  }

  /** Every counter and timer is justified by the log. */
  ghost predicate Justified(cfg: Config, d: Detector)
  {
    && (forall id :: Failed(d, id) == Min(NacksSince(d.log, id), U64_MAX))
    && (forall id :: id in d.suspect ==> TimerJustified(cfg, d.log, id, d.suspect[id]))
  }

  /** Enough probes of `id` failed, the last of them at least the suspicion timeout
      before `now`, and no sign of life came since. */
  ghost predicate Evidence(cfg: Config, log: seq<Event>, id: NodeId, now: nat)
  {
    exists t, k :: SuspectedSince(cfg, log, id, t, k) && Elapsed(now, t) >= cfg.suspectTimeout
  }

  lemma JustifiedStays(cfg: Config, log: seq<Event>, id: NodeId, t: nat, e: Event)
    requires TimerJustified(cfg, log, id, t) && !Clears(e, id)
    ensures TimerJustified(cfg, log + [e], id, t)
  {
    var k :| SuspectedSince(cfg, log, id, t, k);
    assert (log + [e])[..k + 1] == log[..k + 1];
    assert SuspectedSince(cfg, log + [e], id, t, k);
  }

  lemma NacksSnoc(log: seq<Event>, id: NodeId, e: Event)
    ensures NacksSince(log + [e], id) ==
            if Clears(e, id) then 0 else NacksSince(log, id) + if e.Nack? && e.id == id then 1 else 0
  {
    assert (log + [e])[..|log|] == log;
  }

  lemma NackJustifies(cfg: Config, log: seq<Event>, id: NodeId, now: nat)
    requires NacksSince(log, id) + 1 >= 1 + cfg.indirectProbes
    ensures TimerJustified(cfg, log + [Nack(id, now)], id, now)
  {
    var log' := log + [Nack(id, now)];
    NacksSnoc(log, id, Nack(id, now));
    assert log'[..|log| + 1] == log';
    assert SuspectedSince(cfg, log', id, now, |log|);
  }

  lemma AckJustified(cfg: Config, d: Detector, ms: Members, id: NodeId)
    requires Justified(cfg, d)
    ensures Justified(cfg, RecordAck(d, ms, id).0)
  {
    hide TimerJustified, NacksSince;
    var d' := RecordAck(d, ms, id).0;
    forall x ensures Failed(d', x) == Min(NacksSince(d'.log, x), U64_MAX) { NacksSnoc(d.log, x, Ack(id)); }
    forall x | x in d'.suspect ensures TimerJustified(cfg, d'.log, x, d'.suspect[x]) {
      JustifiedStays(cfg, d.log, x, d.suspect[x], Ack(id));
    }
  }

  lemma NackJustified(cfg: Config, d: Detector, ms: Members, id: NodeId, now: nat)
    requires Justified(cfg, d)
    ensures Justified(cfg, RecordNack(d, ms, cfg, id, now).0)
  {
    hide TimerJustified, NacksSince;
    var d' := RecordNack(d, ms, cfg, id, now).0;
    forall x ensures Failed(d', x) == Min(NacksSince(d'.log, x), U64_MAX) { NacksSnoc(d.log, x, Nack(id, now)); }
    forall x | x in d'.suspect ensures TimerJustified(cfg, d'.log, x, d'.suspect[x]) {
      if x in d.suspect {
        JustifiedStays(cfg, d.log, x, d.suspect[x], Nack(id, now));
      } else {
        NackJustifies(cfg, d.log, id, now);
      }
    }
  }

  lemma ExpireJustified(cfg: Config, d: Detector, ms: Members, now: nat)
    requires Justified(cfg, d)
    ensures Justified(cfg, Expire(d, ms, cfg, now).0)
  {
    hide TimerJustified, NacksSince;
    var d', e := Expire(d, ms, cfg, now).0, Expiry(ExpiredSuspects(d, cfg, now), now);
    forall x ensures Failed(d', x) == Min(NacksSince(d'.log, x), U64_MAX) { NacksSnoc(d.log, x, e); }
    forall x | x in d'.suspect ensures TimerJustified(cfg, d'.log, x, d'.suspect[x]) {
      JustifiedStays(cfg, d.log, x, d.suspect[x], e);
    }
  }

  /** A failed probe makes its target suspect, and starts its timer if none runs, if and
      only if the target is listed alive and, with this one, the probes failed since the
      last sign of life reach the threshold. It changes nothing else. */
  lemma SuspectedIffThreshold(cfg: Config, d: Detector, ms: Members, id: NodeId, now: nat)
    requires Justified(cfg, d)
    ensures var (d', ms') := RecordNack(d, ms, cfg, id, now);
            var hit := id in ms.list && ms.list[id].state == Alive && NacksSince(d'.log, id) >= 1 + cfg.indirectProbes;
            && d'.log == d.log + [Nack(id, now)] && SuspectedOnly(d, ms, id, now, hit, d', ms')
  {
    hide Justified, NacksSince, RecordNack, SuspectedOnly;
    FailedIs(cfg, d, id);
    NackOutcome(cfg, d, ms, id, now);
    NacksSnoc(d.log, id, Nack(id, now));
  }

  ghost predicate SuspectedOnly(d: Detector, ms: Members, id: NodeId, now: nat, hit: bool, d': Detector, ms': Members)
  {
    && (forall x :: x in ms'.list <==> x in ms.list)
    && (forall x :: x in ms.list ==> ms'.list[x] == if x == id && hit then ms.list[x].(state := Suspect) else ms.list[x])
    && (forall x :: x in d'.suspect <==> x in d.suspect || (x == id && hit))
    && (forall x :: x in d'.suspect ==> d'.suspect[x] == if x in d.suspect then d.suspect[x] else now)
  }

  lemma FailedIs(cfg: Config, d: Detector, id: NodeId)
    requires Justified(cfg, d)
    ensures Failed(d, id) == Min(NacksSince(d.log, id), U64_MAX)
  {
    hide TimerJustified, NacksSince;
  }

  lemma NackOutcome(cfg: Config, d: Detector, ms: Members, id: NodeId, now: nat)
    ensures var (d', ms') := RecordNack(d, ms, cfg, id, now);
            var hit := id in ms.list && ms.list[id].state == Alive && SaturatingAdd(Failed(d, id), 1) >= 1 + cfg.indirectProbes;
            && d'.log == d.log + [Nack(id, now)] && SuspectedOnly(d, ms, id, now, hit, d', ms')
  {
  }

  /** No node is declared dead without evidence. */
  lemma DeathNeedsEvidence(cfg: Config, d: Detector, now: nat, id: NodeId)
    requires Justified(cfg, d) && id in ExpiredSuspects(d, cfg, now)
    ensures Evidence(cfg, d.log, id, now)
  {
    assert TimerJustified(cfg, d.log, id, d.suspect[id]);
    var k :| SuspectedSince(cfg, d.log, id, d.suspect[id], k);
  }

  /** A listed node that is not dead is declared dead exactly when its suspicion timer
      is overdue, whatever gossip has made of it in the meantime. */
  lemma DeclaredDeadIff(cfg: Config, d: Detector, ms: Members, now: nat, id: NodeId)
    requires id in ms.list && ms.list[id].state != Dead
    ensures Expire(d, ms, cfg, now).1.list[id].state == Dead <==>
              id in d.suspect && Elapsed(now, d.suspect[id]) >= cfg.suspectTimeout
  {
  }

  /** A sign of life clears failures and timer, turns Suspect back to Alive, and changes
      nothing else. */
  lemma AckOutcome(d: Detector, ms: Members, id: NodeId)
    ensures var (d', ms') := RecordAck(d, ms, id);
            && Failed(d', id) == 0 && id !in d'.suspect && d'.dead == d.dead
            && (forall x :: x != id ==> Failed(d', x) == Failed(d, x))
            && (forall x :: x in ms'.list <==> x in ms.list)
            && (forall x :: x in ms.list ==>
                  if x == id && ms.list[x].state == Suspect
                  then ms'.list[x] == Member(ms.list[x].addr, Alive, ms.list[x].incarnation, ms.list[x].cert)
                  else ms'.list[x] == ms.list[x])
  {
  }

  /** A listed node is removed if and only if it is dead and was declared so at least the
      removal delay ago; its timer is then gone too. */
  lemma RemovedIff(cfg: Config, d: Detector, ms: Members, now: nat, id: NodeId)
    requires id in ms.list
    ensures var (d', ms') := Remove(d, ms, cfg, now); var overdue := id in d.dead && Elapsed(now, d.dead[id]) >= cfg.deadRemovalDelay;
            && (id !in ms'.list <==> ms.list[id].state == Dead && overdue)
            && (id in d'.dead <==> id in d.dead && !overdue)
  {
  }

  // ---------------------------------------------------------------------------
  // Peers and the node itself
  // ---------------------------------------------------------------------------

  /** No detector step goes back on a peer, unless it removes the peer. */
  lemma DetectorKeepsFresher(cfg: Config, d: Detector, ms: Members, id: NodeId, now: nat, p: NodeId)
    requires p in ms.list
    ensures p in RecordAck(d, ms, id).1.list && Fresher(ms.list[p], RecordAck(d, ms, id).1.list[p])
    ensures p in RecordNack(d, ms, cfg, id, now).1.list && Fresher(ms.list[p], RecordNack(d, ms, cfg, id, now).1.list[p])
    ensures p in Expire(d, ms, cfg, now).1.list && Fresher(ms.list[p], Expire(d, ms, cfg, now).1.list[p])
    ensures p in Remove(d, ms, cfg, now).1.list ==> Remove(d, ms, cfg, now).1.list[p] == ms.list[p]
    ensures ms.list[p].state == Dead ==>
              && RecordAck(d, ms, id).1.list[p].state == Dead
              && RecordNack(d, ms, cfg, id, now).1.list[p].state == Dead
              && Expire(d, ms, cfg, now).1.list[p].state == Dead
  {
  }

  /** The detector holds nothing against the node itself. */
  predicate Unsuspecting(d: Detector, self: NodeId)
  {
    self !in d.suspect && self !in d.dead && self !in d.failed
  }

  lemma DetectorSparesSelf(cfg: Config, d: Detector, ms: Members, id: NodeId, now: nat)
    requires SelfAlive(ms) && Unsuspecting(d, ms.self)
    ensures var (d', ms') := RecordAck(d, ms, id); Spared(ms, d', ms')
    ensures id != ms.self ==> var (d', ms') := RecordNack(d, ms, cfg, id, now); Spared(ms, d', ms')
    ensures var (d', ms') := Expire(d, ms, cfg, now); Spared(ms, d', ms')
    ensures var (d', ms') := Remove(d, ms, cfg, now); Spared(ms, d', ms')
  {
  }

  predicate Spared(ms: Members, d': Detector, ms': Members)
  {
    && Unsuspecting(d', ms.self)
    && SelfAlive(ms') && ms'.self == ms.self && ms'.incarnation == ms.incarnation
    && ms'.addr == ms.addr && ms'.cert == ms.cert
  }

  // ---------------------------------------------------------------------------
  // The detector
  // ---------------------------------------------------------------------------

  function Ids(s: seq<NodeId>): set<NodeId>
  {
    set id | id in s
  }

  lemma IdsSnoc(s: seq<NodeId>, k: nat)
    requires k < |s|
    ensures Ids(s[..k + 1]) == Ids(s[..k]) + {s[k]}
  {
    assert s[..k + 1] == s[..k] + [s[k]];
  }

  lemma DeclareOne(ms: Members, ids: set<NodeId>, id: NodeId)
    requires id !in ids
    ensures var mid := Declare(ms, ids);
            Declare(ms, ids + {id}) ==
            if id in mid.list then mid.(list := mid.list[id := Killed(mid.list[id], mid.list[id].incarnation)]) else mid
  {
    var mid := Declare(ms, ids);
    if id in mid.list {
      assert Declare(ms, ids + {id}).list == mid.list[id := Killed(mid.list[id], mid.list[id].incarnation)];
    } else {
      assert Declare(ms, ids + {id}).list == mid.list;
    }
  }

  lemma DeadAmongOne(ms: Members, ids: set<NodeId>, id: NodeId)
    ensures DeadAmong(ms, ids + {id}) ==
            DeadAmong(ms, ids) + if id in ms.list && ms.list[id].state == Dead then {id} else {}
  {
  }

  lemma BuryOne(d: Detector, ids: set<NodeId>, id: NodeId, now: nat)
    ensures var mid := Bury(d, ids, now);
            Bury(d, ids + {id}, now) ==
            mid.(suspect := mid.suspect - {id}, failed := mid.failed - {id}, dead := mid.dead[id := now])
  {
    hide Stamp;
    assert d.suspect - (ids + {id}) == d.suspect - ids - {id};
    assert d.failed - (ids + {id}) == d.failed - ids - {id};
    Stamped(d.dead, ids, id, now);
  }

  lemma Stamped(timers: map<NodeId, nat>, ids: set<NodeId>, id: NodeId, now: nat)
    ensures Stamp(timers, ids + {id}, now) == Stamp(timers, ids, now)[id := now]
  {
  }

  /** The keys of `timers` that started at least `limit` before `now`, in some order. */
  method Overdue(timers: map<NodeId, nat>, limit: nat, now: nat) returns (ids: seq<NodeId>)
    ensures Ids(ids) == set id | id in timers && Elapsed(now, timers[id]) >= limit
    ensures forall i, j :: 0 <= i < j < |ids| ==> ids[i] != ids[j]
  {
    ids := [];
    var rest := timers.Keys;
    while rest != {}
      invariant rest <= timers.Keys
      invariant forall id :: id in ids <==> id in timers && id !in rest && Elapsed(now, timers[id]) >= limit
      invariant forall i, j :: 0 <= i < j < |ids| ==> ids[i] != ids[j]
      decreases |rest|
    {
      var id :| id in rest;
      rest := rest - {id};
      if Elapsed(now, timers[id]) >= limit {
        ids := ids + [id];
      }
    }
  }

  class FailureDetector {
    var suspectTimers: map<NodeId, nat>
    var deadTimers: map<NodeId, nat>
    var failedProbes: map<NodeId, nat>
    ghost var log: seq<Event>

    ghost function View(): Detector
      reads this
    {
      Detector(suspectTimers, deadTimers, failedProbes, log)
    }

    constructor ()
      ensures View() == Detector(map[], map[], map[], [])
    {
      suspectTimers, deadTimers, failedProbes, log := map[], map[], map[], [];
    }

    method Ack(members: MembershipList, id: NodeId)
      modifies this, members
      ensures (View(), members.View()) == RecordAck(old(View()), old(members.View()), id)
    {
      failedProbes := failedProbes - {id};
      suspectTimers := suspectTimers - {id};
      log := log + [Event.Ack(id)];
      if id in members.members && members.members[id].state == Suspect {
        members.Add(id, members.members[id].(state := Alive));
      }
    }

    method Nack(members: MembershipList, cfg: Config, id: NodeId, now: nat)
      modifies this, members
      ensures (View(), members.View()) == RecordNack(old(View()), old(members.View()), cfg, id, now)
    {
      var attempts := SaturatingAdd(if id in failedProbes then failedProbes[id] else 0, 1);
      failedProbes := failedProbes[id := attempts];
      log := log + [Event.Nack(id, now)];
      var required := 1 + cfg.indirectProbes;
      if attempts < required {
        return;
      }
      if id in members.members && members.members[id].state == Alive {
        members.Add(id, Suspected(members.members[id], members.members[id].incarnation));
        if id !in suspectTimers {
          suspectTimers := suspectTimers[id := now];
        }
      }
    }

    method CheckSuspectTimeouts(members: MembershipList, cfg: Config, now: nat) returns (newlyDead: seq<NodeId>)
      modifies this, members
      ensures (View(), members.View()) == Expire(old(View()), old(members.View()), cfg, now)
      ensures Ids(newlyDead) == ExpiredSuspects(old(View()), cfg, now)
      ensures forall i, j :: 0 <= i < j < |newlyDead| ==> newlyDead[i] != newlyDead[j]
    {
      hide Declare, Bury;
      var expired := Overdue(suspectTimers, cfg.suspectTimeout, now);
      newlyDead := [];
      ghost var d, ms := View(), members.View();
      NothingExpired(d, ms, now);
      assert expired[..0] == [];
      for k := 0 to |expired|
        invariant newlyDead == expired[..k]
        invariant View() == Bury(d, Ids(expired[..k]), now)
        invariant members.View() == Declare(ms, Ids(expired[..k]))
      {
        var id := expired[k];
        IdsSnoc(expired, k);
        DeclareOne(ms, Ids(expired[..k]), id);
        BuryOne(d, Ids(expired[..k]), id, now);
        suspectTimers := suspectTimers - {id};
        failedProbes := failedProbes - {id};
        ghost var before := members.members;
        var incarnation: Word := if id in members.members then members.members[id].incarnation else 0;
        members.MarkDead(id, incarnation);
        MarkedDead(before, members.members, id, incarnation);
        deadTimers := deadTimers[id := now];
        newlyDead := newlyDead + [id];
      }
      assert expired[..|expired|] == expired;
      assert Ids(expired) == ExpiredSuspects(d, cfg, now);
      BuryKeepsLog(d, Ids(expired), now);
      log := log + [Expiry(Ids(expired), now)];
    }

    method RemoveExpiredDead(members: MembershipList, cfg: Config, now: nat) returns (removed: seq<NodeId>)
      modifies this, members
      ensures (View(), members.View()) == Remove(old(View()), old(members.View()), cfg, now)
      ensures Ids(removed) == DeadAmong(old(members.View()), ExpiredDead(old(View()), cfg, now))
    {
      var expired := Overdue(deadTimers, cfg.deadRemovalDelay, now);
      removed := [];
      ghost var d, ms := View(), members.View();
      for k := 0 to |expired|
        invariant View() == d.(dead := d.dead - Ids(expired[..k]))
        invariant members.View() == ms
        invariant Ids(removed) == DeadAmong(ms, Ids(expired[..k]))
      {
        var id := expired[k];
        IdsSnoc(expired, k);
        deadTimers := deadTimers - {id};
        assert d.dead - Ids(expired[..k]) - {id} == d.dead - Ids(expired[..k + 1]);
        if id in members.members && members.members[id].state == Dead {
          IdsSnoc(removed + [id], |removed|);
          assert (removed + [id])[..|removed|] == removed && (removed + [id])[..|removed| + 1] == removed + [id];
          removed := removed + [id];
        }
        DeadAmongOne(ms, Ids(expired[..k]), id);
      }
      assert expired[..|expired|] == expired;
      assert Ids(expired) == ExpiredDead(d, cfg, now);
      for k := 0 to |removed|
        invariant View() == d.(dead := d.dead - Ids(expired))
        invariant members.View() == ms.(list := ms.list - Ids(removed[..k]))
      {
        IdsSnoc(removed, k);
        members.RemoveNode(removed[k]);
        assert ms.list - Ids(removed[..k]) - {removed[k]} == ms.list - Ids(removed[..k + 1]);
      }
      assert removed[..|removed|] == removed;
    }
  }

  lemma NothingExpired(d: Detector, ms: Members, now: nat)
    ensures Bury(d, Ids([]), now) == d && Declare(ms, Ids([])) == ms
  {
    assert Bury(d, Ids([]), now).dead == d.dead;
    assert Declare(ms, Ids([])).list == ms.list;
  }

  lemma BuryKeepsLog(d: Detector, ids: set<NodeId>, now: nat)
    ensures Bury(d, ids, now).log == d.log
  {
  }
}

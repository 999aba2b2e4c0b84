/** What becomes of a suspicion: its timer runs on until the node is heard from or
    declared dead, whatever gossip says of it. */
module SwimTimers {
  import opened Values
  import opened SwimMembers
  import opened SwimDetector
  import opened SwimGossip
  import opened SwimService
  import opened SwimRuns

  /** Some sign of life of `id` was logged after the first `from` events. */
  ghost predicate AckedSince(log: seq<Event>, from: nat, id: NodeId)
  {
    exists x :: from <= x < |log| && log[x] == Ack(id)
  }

  lemma AckedLater(log: seq<Event>, more: seq<Event>, from: nat, id: NodeId)
    requires from <= |log|
    ensures AckedSince(log + more, from, id) <==> AckedSince(log, from, id) || Ack(id) in more
  {
    if AckedSince(log, from, id) {
      var x :| from <= x < |log| && log[x] == Ack(id);
      assert (log + more)[x] == Ack(id);
    }
    if Ack(id) in more {
      var y :| 0 <= y < |more| && more[y] == Ack(id);
      assert (log + more)[|log| + y] == Ack(id);
    }
    if AckedSince(log + more, from, id) {
      var x :| from <= x < |log + more| && (log + more)[x] == Ack(id);
      if x >= |log| { assert more[x - |log|] == Ack(id); }
    }
  }

  /** The suspicion timer of `id`, if one is running. */
  function Timer(d: Detector, id: NodeId): Option<nat>
  {
    if id in d.suspect then Some(d.suspect[id]) else None
  }

  lemma ResolvedTimer(cfg: Config, s: Service, now: nat, id: NodeId)
    ensures var d := Resolved(cfg, s, now).0;
            && (id in s.detector.suspect ==> Timer(d, id) == Timer(s.detector, id))
            && exists more :: d.log == s.detector.log + more && forall x :: Ack(x) !in more
  {
    var d := Resolved(cfg, s, now).0;
    if ProbeFailed(s) {
      assert d.log == s.detector.log + [Nack(s.probe.value, now)];
    } else {
      assert d.log == s.detector.log + [];
    }
  }

  /** A period leaves a timer alone unless it is overdue, and is no sign of life. */
  lemma PeriodTimer(cfg: Config, s: Service, now: nat, dead: seq<NodeId>, removed: seq<NodeId>, s': Service, id: NodeId)
    requires Ticked(cfg, s, now, dead, removed, s') && id in s.detector.suspect
    requires Elapsed(now, s.detector.suspect[id]) < cfg.suspectTimeout
    ensures Timer(s'.detector, id) == Timer(s.detector, id)
  {
    hide AddedAll, Probing, DeadAmong;
    ResolvedTimer(cfg, s, now, id);
  }

  lemma PeriodLog(cfg: Config, s: Service, now: nat, dead: seq<NodeId>, removed: seq<NodeId>, s': Service)
    requires Ticked(cfg, s, now, dead, removed, s')
    ensures exists more :: s'.detector.log == s.detector.log + more && forall x :: Ack(x) !in more
  {
    hide AddedAll, Probing, DeadAmong, ExpiredSuspects, ExpiredDead, Bury;
    ResolvedTimer(cfg, s, now, 0);
    var d := Resolved(cfg, s, now).0;
    var more :| d.log == s.detector.log + more && forall x :: Ack(x) !in more;
    PeriodLogs(cfg, s, now, s');
    var e := Expiry(ExpiredSuspects(d, cfg, now), now);
    assert s.detector.log + more + [e] == s.detector.log + (more + [e]);
  }

  lemma PeriodLogs(cfg: Config, s: Service, now: nat, s': Service)
    requires exists dead, removed :: Ticked(cfg, s, now, dead, removed, s')
    ensures var d := Resolved(cfg, s, now).0; s'.detector.log == d.log + [Expiry(ExpiredSuspects(d, cfg, now), now)]
  {
    hide AddedAll, Probing;
  }

  /** What an envelope adds to the log, and that a timer goes with its node's ack only. */
  lemma ReceiveTimer(cfg: Config, s: Service, env: Envelope, s': Service, id: NodeId)
    requires Received(cfg, s, env, s')
    ensures exists more :: s'.detector.log == s.detector.log + more
              && Timer(s'.detector, id) == if Ack(id) in more then None else Timer(s.detector, id)
  {
    hide AddedAll, ApplyAll, Refutations, SomeDrained;
    var (d, ms) := Heard(s, env);
    var q :| && AddedAll(s.queue, Refutations(ms, env.gossip), q)
             && Replied(cfg, s.(detector := d, members := ApplyAll(ms, env.gossip), queue := q), env, s');
    var mid := s.(detector := d, members := ApplyAll(ms, env.gossip), queue := q);
    var first := if env.from == s.members.self then [] else [Ack(env.from)];
    assert d.log == s.detector.log + first;
    var then' := if env.kind.AckFor? && AboutWhom(mid, env) != mid.members.self then [Ack(AboutWhom(mid, env))] else [];
    assert s'.detector.log == d.log + then';
    assert s'.detector.log == s.detector.log + (first + then');
  }

  /** `id` is not suspected anew from state `i` to the probe resolved at state `j`. */
  ghost predicate NotSuspectedAnew(cfg: Config, ss: seq<Service>, actions: seq<Action>, id: NodeId, i: nat, j: nat)
    requires i <= j < |actions| && |ss| == |actions| + 1 && actions[j].Period?
  {
    && StaysUnsuspected(ss, id, i, j)
    && (id !in ss[j].detector.suspect ==> id !in Resolved(cfg, ss[j], actions[j].now).0.suspect)
  }

  /** One step under a running timer: it runs on until its node's ack. */
  lemma TimerStep(cfg: Config, s: Service, a: Action, s': Service, id: NodeId, from: nat)
    requires SwimService.Next(cfg, s, a, s') && from <= |s.detector.log|
    requires id in s.detector.suspect
    requires a.Period? ==> Elapsed(a.now, s.detector.suspect[id]) < cfg.suspectTimeout
    ensures from <= |s'.detector.log|
    ensures !AckedSince(s.detector.log, from, id) ==>
              Timer(s'.detector, id) == if AckedSince(s'.detector.log, from, id) then None else Timer(s.detector, id)
  {
    hide AckedSince, Ticked, Received;
    match a
    case Seed(_, _) =>
    case Period(now, dead, removed) =>
      PeriodTimer(cfg, s, now, dead, removed, s', id);
      PeriodLog(cfg, s, now, dead, removed, s');
      var more :| s'.detector.log == s.detector.log + more && forall x :: Ack(x) !in more;
      AckedLater(s.detector.log, more, from, id);
    case Receive(env) =>
      ReceiveTimer(cfg, s, env, s', id);
      var more :| s'.detector.log == s.detector.log + more
                  && Timer(s'.detector, id) == if Ack(id) in more then None else Timer(s.detector, id);
      AckedLater(s.detector.log, more, from, id);
  }

  lemma LogGrows(cfg: Config, s: Service, a: Action, s': Service, id: NodeId, from: nat)
    requires SwimService.Next(cfg, s, a, s') && from <= |s.detector.log|
    ensures from <= |s'.detector.log| && (AckedSince(s.detector.log, from, id) ==> AckedSince(s'.detector.log, from, id))
  {
    hide AckedSince, Ticked, Received;
    match a
    case Seed(_, _) =>
    case Period(now, dead, removed) =>
      PeriodLog(cfg, s, now, dead, removed, s');
      var more :| s'.detector.log == s.detector.log + more && forall x :: Ack(x) !in more;
      AckedLater(s.detector.log, more, from, id);
    case Receive(env) =>
      ReceiveTimer(cfg, s, env, s', id);
      var more :| s'.detector.log == s.detector.log + more
                  && Timer(s'.detector, id) == if Ack(id) in more then None else Timer(s.detector, id);
      AckedLater(s.detector.log, more, from, id);
  }

  /** No period from `i` up to `j` came at or after the deadline of a timer started at `t`. */
  ghost predicate BeforeDeadline(cfg: Config, actions: seq<Action>, t: nat, i: nat, j: nat)
  {
    j <= |actions| && forall k :: i <= k < j && actions[k].Period? ==> Elapsed(actions[k].now, t) < cfg.suspectTimeout
  }

  ghost predicate StaysUnsuspected(ss: seq<Service>, id: NodeId, i: nat, j: nat)
  {
    j < |ss| && forall k :: i <= k < j && id !in ss[k].detector.suspect ==> id !in ss[k + 1].detector.suspect
  }

  /** Up to its deadline a suspicion timer runs on until its node is heard from. */
  lemma {:induction false} TimerRunsUntilAck(cfg: Config, ss: seq<Service>, actions: seq<Action>, id: NodeId, i: nat, j: nat)
    requires SwimRuns.IsRun(cfg, ss, actions) && i <= j <= |actions| && id in ss[i].detector.suspect
    requires StaysUnsuspected(ss, id, i, j) && BeforeDeadline(cfg, actions, ss[i].detector.suspect[id], i, j)
    ensures var from := |ss[i].detector.log|;
            && from <= |ss[j].detector.log|
            && Timer(ss[j].detector, id) ==
               if AckedSince(ss[j].detector.log, from, id) then None else Timer(ss[i].detector, id)
    decreases j
  {
    hide SwimRuns.IsRun, AckedSince, SwimService.Next;
    var from := |ss[i].detector.log|;
    if i < j {
      TimerRunsUntilAck(cfg, ss, actions, id, i, j - 1);
      RunPrefix(cfg, ss, actions, j - 1);
      var s, a, s' := ss[j - 1], actions[j - 1], ss[j];
      LogGrows(cfg, s, a, s', id, from);
      if id in s.detector.suspect {
        TimerStep(cfg, s, a, s', id, from);
      }
    } else {
      NoAckYet(ss[i].detector.log, id);
    }
  }

  lemma NoAckYet(log: seq<Event>, id: NodeId)
    ensures !AckedSince(log, |log|, id)
  {
  }

  /** In every run, at the first period past the deadline of a suspicion, its node is
      declared dead if and only if no sign of life of it was recorded since. Nothing is
      assumed of what gossip said: a refutation heard in the meantime does not help. */
  lemma OnlyAnAckSavesASuspect(cfg: Config, ss: seq<Service>, actions: seq<Action>, id: NodeId, i: nat, j: nat)
    requires SwimRuns.IsRun(cfg, ss, actions) && i <= j < |actions| && actions[j].Period? && id in ss[i].detector.suspect
    requires NotSuspectedAnew(cfg, ss, actions, id, i, j)
    requires BeforeDeadline(cfg, actions, ss[i].detector.suspect[id], i, j)
    requires Elapsed(actions[j].now, ss[i].detector.suspect[id]) >= cfg.suspectTimeout
    ensures id in actions[j].dead <==> !AckedSince(ss[j].detector.log, |ss[i].detector.log|, id)
    ensures id in actions[j].dead && id in ss[j + 1].members.list ==> ss[j + 1].members.list[id].state == Dead
  {
    hide SwimRuns.IsRun, AckedSince, Ticked;
    TimerRunsUntilAck(cfg, ss, actions, id, i, j);
    RunPrefix(cfg, ss, actions, j);
    ResolvedTimer(cfg, ss[j], actions[j].now, id);
    DeclaredInPeriod(cfg, ss[j], actions[j].now, actions[j].dead, actions[j].removed, ss[j + 1], id);
  }

  lemma DeclaredInPeriod(cfg: Config, s: Service, now: nat, dead: seq<NodeId>, removed: seq<NodeId>, s': Service, id: NodeId)
    requires Ticked(cfg, s, now, dead, removed, s')
    ensures var d := Resolved(cfg, s, now).0;
            id in dead <==> id in d.suspect && Elapsed(now, d.suspect[id]) >= cfg.suspectTimeout
    ensures id in dead && id in s'.members.list ==> s'.members.list[id].state == Dead
  {
    hide AddedAll, Probing, Bury;
    assert id in dead <==> id in Ids(dead);
  }

  /** The period at `i` starts a suspicion timer for `id`. */
  ghost predicate SuspectedAt(cfg: Config, ss: seq<Service>, actions: seq<Action>, id: NodeId, i: nat)
  {
    && i < |actions| && i < |ss| && actions[i].Period?
    && id !in ss[i].detector.suspect && id in Resolved(cfg, ss[i], actions[i].now).0.suspect
  }

  /** From state `i` to state `j`, `id` was neither heard from nor declared dead. */
  ghost predicate StillHeld(ss: seq<Service>, actions: seq<Action>, id: NodeId, i: nat, j: nat)
  {
    && i <= j <= |actions| && j < |ss|
    && (forall k :: i <= k < j && actions[k].Period? ==> id !in actions[k].dead)
    && !AckedSince(ss[j].detector.log, |ss[i].detector.log|, id)
  }

  lemma PeriodTimers(cfg: Config, s: Service, now: nat, dead: seq<NodeId>, removed: seq<NodeId>, s': Service, id: NodeId)
    requires Ticked(cfg, s, now, dead, removed, s')
    ensures Timer(s'.detector, id) == if id in dead then None else Timer(Resolved(cfg, s, now).0, id)
    ensures id in s.detector.suspect ==> Timer(Resolved(cfg, s, now).0, id) == Timer(s.detector, id)
    ensures id !in s.detector.suspect && id in Resolved(cfg, s, now).0.suspect ==>
              Timer(Resolved(cfg, s, now).0, id) == Some(now)
  {
    hide AddedAll, Probing, DeadAmong;
    assert id in dead <==> id in Ids(dead);
  }

  /** One more step: a suspicion is still held if it was and the step neither hears from
      the node nor declares it dead. */
  lemma HeldStep(cfg: Config, ss: seq<Service>, actions: seq<Action>, id: NodeId, i: nat, j: nat)
    requires |ss| == |actions| + 1 && i < j <= |actions| && SwimService.Next(cfg, ss[j - 1], actions[j - 1], ss[j])
    requires |ss[i].detector.log| <= |ss[j - 1].detector.log|
    ensures |ss[i].detector.log| <= |ss[j].detector.log|
    ensures StillHeld(ss, actions, id, i, j) <==>
              && StillHeld(ss, actions, id, i, j - 1)
              && (actions[j - 1].Period? ==> id !in actions[j - 1].dead)
              && (actions[j - 1].Receive? ==> !AckedSince(ss[j].detector.log, |ss[j - 1].detector.log|, id))
  {
    hide Ticked, Received;
    var s, a, s', from := ss[j - 1], actions[j - 1], ss[j], |ss[i].detector.log|;
    match a
    case Seed(_, _) =>
    case Period(now, dead, removed) =>
      PeriodLog(cfg, s, now, dead, removed, s');
      var more :| s'.detector.log == s.detector.log + more && forall x :: Ack(x) !in more;
      AckedLater(s.detector.log, more, from, id);
    case Receive(env) =>
      ReceiveTimer(cfg, s, env, s', id);
      var more :| s'.detector.log == s.detector.log + more
                  && Timer(s'.detector, id) == if Ack(id) in more then None else Timer(s.detector, id);
      AckedLater(s.detector.log, more, from, id);
      AckedLater(s.detector.log, more, |s.detector.log|, id);
  }

  lemma {:induction false} LogsGrow(cfg: Config, ss: seq<Service>, actions: seq<Action>, i: nat, j: nat)
    requires SwimRuns.IsRun(cfg, ss, actions) && i <= j <= |actions|
    ensures |ss[i].detector.log| <= |ss[j].detector.log|
    decreases j
  {
    hide SwimRuns.IsRun, SwimService.Next;
    if i < j {
      LogsGrow(cfg, ss, actions, i, j - 1);
      RunPrefix(cfg, ss, actions, j - 1);
      LogGrows(cfg, ss[j - 1], actions[j - 1], ss[j], 0, |ss[i].detector.log|);
    }
  }

  /** The timer after a step, given the timer before it. */
  lemma TimerAfter(cfg: Config, s: Service, a: Action, s': Service, id: NodeId)
    requires SwimService.Next(cfg, s, a, s')
    ensures Timer(s'.detector, id) == match a
              case Seed(_, _) => Timer(s.detector, id)
              case Period(now, dead, _) => (if id in dead then None else Timer(Resolved(cfg, s, now).0, id))
              case Receive(_) =>
                if AckedSince(s'.detector.log, |s.detector.log|, id) then None else Timer(s.detector, id)
  {
    hide Ticked, Received;
    match a
    case Seed(_, _) =>
    case Period(now, dead, removed) => PeriodTimers(cfg, s, now, dead, removed, s', id);
    case Receive(env) =>
      ReceiveTimer(cfg, s, env, s', id);
      var more :| s'.detector.log == s.detector.log + more
                  && Timer(s'.detector, id) == if Ack(id) in more then None else Timer(s.detector, id);
      AckedLater(s.detector.log, more, |s.detector.log|, id);
  }

  /** A timer that was started and is still held shows the time it was started. */
  lemma {:induction false} HeldTimerRuns(cfg: Config, ss: seq<Service>, actions: seq<Action>, id: NodeId, i: nat, j: nat)
    requires SwimRuns.IsRun(cfg, ss, actions) && i < j <= |actions|
    requires SuspectedAt(cfg, ss, actions, id, i) && StillHeld(ss, actions, id, i, j)
    ensures Timer(ss[j].detector, id) == Some(actions[i].now)
    decreases j
  {
    hide SwimRuns.IsRun, AckedSince, SwimService.Next, Resolved;
    RunPrefix(cfg, ss, actions, j - 1);
    LogsGrow(cfg, ss, actions, i, j - 1);
    var s, a, s' := ss[j - 1], actions[j - 1], ss[j];
    HeldStep(cfg, ss, actions, id, i, j);
    TimerAfter(cfg, s, a, s', id);
    if i < j - 1 {
      hide StillHeld, SuspectedAt;
      HeldTimerRuns(cfg, ss, actions, id, i, j - 1);
    }
    if a.Period? { ResolvedStarts(cfg, s, a.now, id); }
  }

  lemma ResolvedStarts(cfg: Config, s: Service, now: nat, id: NodeId)
    ensures var d := Resolved(cfg, s, now).0;
            && (id in s.detector.suspect ==> Timer(d, id) == Timer(s.detector, id))
            && (id !in s.detector.suspect && id in d.suspect ==> Timer(d, id) == Some(now))
  {
  }

  /** A timer that runs was started by some period and is still held. */
  lemma {:induction false} TimerWasStarted(cfg: Config, ss: seq<Service>, actions: seq<Action>, id: NodeId, j: nat) returns (i: nat)
    requires SwimRuns.IsRun(cfg, ss, actions) && j <= |actions| && id in ss[j].detector.suspect
    ensures i < j && SuspectedAt(cfg, ss, actions, id, i) && StillHeld(ss, actions, id, i, j)
    decreases j
  {
    hide SwimRuns.IsRun, AckedSince, SwimService.Next, Resolved;
    RunStartsFresh(cfg, ss, actions);
    RunPrefix(cfg, ss, actions, j - 1);
    var s, a, s' := ss[j - 1], actions[j - 1], ss[j];
    TimerAfter(cfg, s, a, s', id);
    if id in s.detector.suspect {
      i := TimerWasStarted(cfg, ss, actions, id, j - 1);
    } else {
      i := j - 1;
      NothingSince(ss, actions, id, i);
    }
    LogsGrow(cfg, ss, actions, i, j - 1);
    HeldStep(cfg, ss, actions, id, i, j);
  }

  lemma RunStartsFresh(cfg: Config, ss: seq<Service>, actions: seq<Action>)
    requires SwimRuns.IsRun(cfg, ss, actions)
    ensures |ss| == |actions| + 1 && ss[0].detector.suspect == map[]
  {
    hide SwimService.Next;
  }

  lemma NothingSince(ss: seq<Service>, actions: seq<Action>, id: NodeId, i: nat)
    requires i <= |actions| && i < |ss|
    ensures StillHeld(ss, actions, id, i, i)
  {
  }

  /** At the period `j` a suspicion started at `i` is still held and past its deadline. */
  ghost predicate PastDeadline(cfg: Config, ss: seq<Service>, actions: seq<Action>, id: NodeId, i: nat, j: nat)
  {
    && SuspectedAt(cfg, ss, actions, id, i) && StillHeld(ss, actions, id, i, j)
    && j < |actions| && actions[j].Period? && Elapsed(actions[j].now, actions[i].now) >= cfg.suspectTimeout
  }

  /** Exactly who dies, in every run: a period declares a node dead if and only if some
      period at least the suspicion timeout before it, or itself, started its timer, and
      since then the node was neither heard from nor declared dead. What gossip said of
      it does not enter. */
  lemma DeclaredDeadExactlyWhen(cfg: Config, ss: seq<Service>, actions: seq<Action>, id: NodeId, j: nat)
    requires SwimRuns.IsRun(cfg, ss, actions) && j < |actions| && actions[j].Period?
    ensures id in actions[j].dead <==> exists i: nat :: i <= j && PastDeadline(cfg, ss, actions, id, i, j)
  {
    hide SwimRuns.IsRun, Resolved, AckedSince, Ticked;
    RunPrefix(cfg, ss, actions, j);
    var s, a := ss[j], actions[j];
    DeclaredInPeriod(cfg, s, a.now, a.dead, a.removed, ss[j + 1], id);
    ResolvedStarts(cfg, s, a.now, id);
    NothingSince(ss, actions, id, j);
    if id in a.dead {
      var i := j;
      if id in s.detector.suspect {
        i := TimerWasStarted(cfg, ss, actions, id, j);
        HeldTimerRuns(cfg, ss, actions, id, i, j);
      }
      assert PastDeadline(cfg, ss, actions, id, i, j);
    }
    if i: nat :| i <= j && PastDeadline(cfg, ss, actions, id, i, j) {
      if i < j { HeldTimerRuns(cfg, ss, actions, id, i, j); }
    }
  }

  // ---------------------------------------------------------------------------
  // A refutation that does not help
  // ---------------------------------------------------------------------------

  lemma CanMakeRoom(pending: map<NodeId, Pending>) returns (rest: map<NodeId, Pending>)
    ensures MadeRoom(pending, rest)
  {
    if pending == map[] { return pending; }
    var id := SmallestBudget(pending, pending.Keys);
    rest := pending - {id};
    assert LeastLeft(pending, id);
  }

  lemma {:induction false} SmallestBudget(pending: map<NodeId, Pending>, ids: set<NodeId>) returns (id: NodeId)
    requires ids != {} && ids <= pending.Keys
    ensures id in ids && forall x :: x in ids ==> pending[id].left <= pending[x].left
    decreases |ids|
  {
    id :| id in ids;
    if ids != {id} {
      var other := SmallestBudget(pending, ids - {id});
      if pending[other].left < pending[id].left { id := other; }
    }
  }

  lemma CanAdd(q: Queue, u: Update) returns (q': Queue)
    ensures Added(q, u, q')
  {
    if u.node in q.pending && !Supersedes(u, q.pending[u.node].update) { return q; }
    if u.node in q.pending || |q.pending| < q.maxEntries { return q.(pending := q.pending[u.node := Pending(u, q.budget)]); }
    var rest := CanMakeRoom(q.pending);
    q' := q.(pending := rest[u.node := Pending(u, q.budget)]);
  }

  lemma {:induction false} CanAddAll(q: Queue, us: seq<Update>) returns (q': Queue)
    ensures AddedAll(q, us, q')
    decreases |us|
  {
    if us == [] {
      AddedNone(q);
      return q;
    }
    var mid := CanAddAll(q, us[..|us| - 1]);
    q' := CanAdd(mid, us[|us| - 1]);
    AddedAllSnoc(q, us[..|us| - 1], mid, us[|us| - 1], q');
    assert us[..|us| - 1] + [us[|us| - 1]] == us;
  }

  lemma DrainNothing(q: Queue)
    ensures SomeDrained(q, 0, q)
  {
    assert DrainedBy(q, 0, [], [], q);
    assert Drained(q, 0, [], q);
  }

  lemma {:induction false} Listing(ids: set<NodeId>) returns (s: seq<NodeId>)
    ensures Ids(s) == ids
    decreases |ids|
  {
    if ids == {} { return []; }
    var id :| id in ids;
    var rest := Listing(ids - {id});
    s := rest + [id];
    assert Ids(s) == Ids(rest) + {id};
  }

  /** A period can always be taken, probing any peer that is then not dead. */
  lemma CanTick(cfg: Config, s: Service, now: nat, target: NodeId) returns (dead: seq<NodeId>, removed: seq<NodeId>, s': Service)
    requires cfg.maxGossip == 0
    ensures Ticked(cfg, s, now, dead, removed, s')
    ensures target in Candidates(AfterPeriod(cfg, s, now).1) ==> s'.probe == Some(target)
  {
    hide Resolved, Expire, Remove, AddedAll, SuspicionNews, DeathNews, SomeDrained, Candidates;
    var (d1, m1) := Resolved(cfg, s, now);
    var (d2, m2) := Expire(d1, m1, cfg, now);
    var (d3, m3) := Remove(d2, m2, cfg, now);
    dead := Listing(ExpiredSuspects(d1, cfg, now));
    removed := Listing(DeadAmong(m2, ExpiredDead(d2, cfg, now)));
    var q := CanAddAll(s.queue, SuspicionNews(s, m1) + DeathNews(m2, dead));
    DrainNothing(q);
    if Candidates(m3) == {} {
      s' := Service(m3, d3, q, None, s.acked, s.relays);
    } else {
      var next :| next in Candidates(m3) && (target in Candidates(m3) ==> next == target);
      s' := Service(m3, d3, q, Some(next), false, s.relays);
    }
    assert Probing(cfg, m3, q, s.acked, s');
  }

  /** Detector and membership after a period. */
  function AfterPeriod(cfg: Config, s: Service, now: nat): (Detector, Members)
  {
    var (d1, m1) := Resolved(cfg, s, now);
    var (d2, m2) := Expire(d1, m1, cfg, now);
    Remove(d2, m2, cfg, now)
  }

  lemma TickedAfter(cfg: Config, s: Service, now: nat, dead: seq<NodeId>, removed: seq<NodeId>, s': Service)
    requires Ticked(cfg, s, now, dead, removed, s')
    ensures (s'.detector, s'.members) == AfterPeriod(cfg, s, now)
    ensures s'.probe.Some? ==> !s'.acked
  {
    hide AddedAll, Expire, Remove, Resolved;
  }

  /** The members with `b` known at the given state, in a list of a node `a`. */
  ghost predicate KnownAs(s: Service, a: NodeId, b: NodeId, state: NodeState, i: Word)
  {
    s.members.self == a && b in s.members.list && s.members.list[b].state == state && s.members.list[b].incarnation == i
  }

  const PATIENCE: Config := Config(5, 100, 0, 0)

  /** Seeding a peer and probing it for the first time. */
  lemma ProbedFirst(s: Service, b: NodeId)
    requires s.probe == None && s.detector.suspect == map[] && s.detector.dead == map[]
    requires b != s.members.self && KnownAs(s, s.members.self, b, Alive, 0)
    ensures var (d, ms) := AfterPeriod(PATIENCE, s, 0);
            d.suspect == map[] && d.dead == map[] && ms == s.members && b in Candidates(ms)
  {
    var (d1, m1) := Resolved(PATIENCE, s, 0);
    assert ExpiredSuspects(d1, PATIENCE, 0) == {};
    assert Declare(m1, {}).list == m1.list;
    var (d2, m2) := Expire(d1, m1, PATIENCE, 0);
    assert d2.dead == map[];
    assert ExpiredDead(d2, PATIENCE, 0) == {};
    assert m2.list - DeadAmong(m2, {}) == m2.list;
  }

  /** The probe went unanswered: the peer is suspected, and probed again. */
  lemma SuspectedNext(s: Service, b: NodeId)
    requires s.probe == Some(b) && !s.acked && s.detector.suspect == map[] && s.detector.dead == map[]
    requires b != s.members.self && KnownAs(s, s.members.self, b, Alive, 0)
    ensures var (d, ms) := AfterPeriod(PATIENCE, s, 1);
            && d.suspect == map[b := 1] && d.dead == map[] && ms.self == s.members.self
            && b in ms.list && ms.list[b].state == Suspect && ms.list[b].incarnation == 0 && b in Candidates(ms)
  {
    var (d1, m1) := Resolved(PATIENCE, s, 1);
    assert d1.suspect == map[b := 1] && d1.dead == map[];
    assert ExpiredSuspects(d1, PATIENCE, 1) == {};
    var (d2, m2) := Expire(d1, m1, PATIENCE, 1);
    assert d2.dead == map[] && d2.suspect == d1.suspect;
    assert ExpiredDead(d2, PATIENCE, 1) == {};
    assert m2.list[b] == m1.list[b];
  }

  function Refutation(b: NodeId, c: NodeId): Envelope
  {
    Envelope(c, "", 0, Ping, [AliveUpdate(b, "", 1, None)])
  }

  /** Another node passes on the peer's refutation. */
  lemma RefutedByGossip(s: Service, b: NodeId, c: NodeId) returns (s': Service)
    requires s.detector.suspect == map[b := 1] && KnownAs(s, s.members.self, b, Suspect, 0)
    requires b != s.members.self && c != s.members.self && c != b
    ensures Received(PATIENCE, s, Refutation(b, c), s')
    ensures s'.detector.suspect == map[b := 1] && s'.detector.dead == s.detector.dead
    ensures KnownAs(s', s.members.self, b, Alive, 1)
    ensures s'.probe == s.probe && s'.acked == s.acked
  {
    hide AddedAll, SomeDrained;
    var env := Refutation(b, c);
    var (d, ms) := Heard(s, env);
    assert d.suspect == map[b := 1];
    assert env.gossip[..0] == [];
    assert ApplyAll(ms, []) == ms && Refutations(ms, []) == [];
    assert ApplyAll(ms, env.gossip) == Apply(ms, env.gossip[0]).0;
    assert Refutations(ms, env.gossip) == [];
    AddedNone(s.queue);
    DrainNothing(s.queue);
    s' := s.(detector := d, members := ApplyAll(ms, env.gossip));
    assert Replied(PATIENCE, s', env, s');
  }

  /** A run in which a suspected peer comes back alive at a higher incarnation, is known
      as such, and is declared dead all the same when the old timer runs out. */
  lemma RefutedPeerStillDies() returns (ss: seq<Service>, actions: seq<Action>)
    ensures SwimRuns.IsRun(PATIENCE, ss, actions) && |actions| == 5 && actions[4].Period?
    ensures KnownAs(ss[3], 1, 2, Suspect, 0) && KnownAs(ss[4], 1, 2, Alive, 1) && 2 in actions[4].dead
  {
    hide Ticked, Received, AfterPeriod, Candidates;
    var s0 := Fresh(1, "", None);
    var s1 := Seeded(s0, 2, "");
    ProbedFirst(s1, 2);
    var dead1, removed1, s2 := CanTick(PATIENCE, s1, 0, 2);
    TickedAfter(PATIENCE, s1, 0, dead1, removed1, s2);
    SuspectedNext(s2, 2);
    var dead2, removed2, s3 := CanTick(PATIENCE, s2, 1, 2);
    TickedAfter(PATIENCE, s2, 1, dead2, removed2, s3);
    var s4 := RefutedByGossip(s3, 2, 3);
    var dead4, removed4, s5 := CanTick(PATIENCE, s4, 6, 3);
    DeclaredInPeriod(PATIENCE, s4, 6, dead4, removed4, s5, 2);
    ResolvedTimer(PATIENCE, s4, 6, 2);
    ss := [s0, s1, s2, s3, s4, s5];
    actions := [Seed(2, ""), Period(0, dead1, removed1), Period(1, dead2, removed2), Receive(Refutation(2, 3)),
                Period(6, dead4, removed4)];
    assert SwimService.Next(PATIENCE, s0, actions[0], s1) && SwimService.Next(PATIENCE, s1, actions[1], s2);
    assert SwimService.Next(PATIENCE, s2, actions[2], s3) && SwimService.Next(PATIENCE, s3, actions[3], s4);
    assert SwimService.Next(PATIENCE, s4, actions[4], s5);
  }
}

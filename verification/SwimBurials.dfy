/** When the dead are forgotten: over every run, a node is removed exactly when it is known
    dead and was declared so long enough ago. */
module SwimBurials {
  import opened Values
  import opened SwimMembers
  import opened SwimDetector
  import opened SwimGossip
  import opened SwimService
  import SwimRuns

  /** When the node was declared dead, as long as that is remembered. */
  function Grave(d: Detector, id: NodeId): Option<nat>
  {
    if id in d.dead then Some(d.dead[id]) else None
  }

  ghost predicate Overdue(cfg: Config, now: nat, since: nat)
  {
    Elapsed(now, since) >= cfg.deadRemovalDelay
  }

  /** What a period knows of `id` when it looks for overdue dead. */
  ghost function KnownAtRemoval(cfg: Config, s: Service, now: nat, id: NodeId): Option<Member>
  {
    var (d, ms) := Resolved(cfg, s, now);
    Known(Expire(d, ms, cfg, now).1, id)
  }

  lemma PeriodGrave(cfg: Config, s: Service, now: nat, dead: seq<NodeId>, removed: seq<NodeId>, s': Service, id: NodeId)
    requires Ticked(cfg, s, now, dead, removed, s')
    ensures var g := if id in dead then Some(now) else Grave(s.detector, id);
            && Grave(s'.detector, id) == (if g.Some? && Overdue(cfg, now, g.value) then None else g)
            && (id in removed <==>
                  && g.Some? && Overdue(cfg, now, g.value)
                  && KnownAtRemoval(cfg, s, now, id).Some? && KnownAtRemoval(cfg, s, now, id).value.state == Dead)
            && (id in removed ==> id !in s'.members.list)
  {
    hide AddedAll, Probing, Suspected, Killed;
    assert id in dead <==> id in Ids(dead);
    assert id in removed <==> id in Ids(removed);
  }

  lemma ReceiveGrave(cfg: Config, s: Service, env: Envelope, s': Service, id: NodeId)
    requires Received(cfg, s, env, s')
    ensures Grave(s'.detector, id) == Grave(s.detector, id)
  {
    hide AddedAll, Refutations, SomeDrained, ApplyAll, Cleared;
    var (d, ms) := Heard(s, env);
    var q :| && AddedAll(s.queue, Refutations(ms, env.gossip), q)
             && Replied(cfg, s.(detector := d, members := ApplyAll(ms, env.gossip), queue := q), env, s');
  }

  /** Period `i` declared `id` dead, and no period since, up to state `j`, declared it again
      or found the declaration overdue. */
  ghost predicate BuriedSince(cfg: Config, actions: seq<Action>, id: NodeId, i: nat, j: nat)
  {
    && i < j <= |actions| && actions[i].Period? && id in actions[i].dead
    && forall k :: i <= k < j && actions[k].Period? ==> StaysBuried(cfg, actions, id, i, k)
  }

  ghost predicate StaysBuried(cfg: Config, actions: seq<Action>, id: NodeId, i: nat, k: nat)
    requires i <= k < |actions| && actions[i].Period? && actions[k].Period?
  {
    (k > i ==> id !in actions[k].dead) && !Overdue(cfg, actions[k].now, actions[i].now)
  }

  lemma BuriedNext(cfg: Config, actions: seq<Action>, id: NodeId, i: nat, j: nat)
    requires i < j < |actions|
    ensures BuriedSince(cfg, actions, id, i, j + 1) <==>
              BuriedSince(cfg, actions, id, i, j) && (actions[j].Period? ==> StaysBuried(cfg, actions, id, i, j))
  {
    hide StaysBuried;
  }

  lemma BuriedNow(cfg: Config, actions: seq<Action>, id: NodeId, j: nat)
    requires j < |actions|
    ensures BuriedSince(cfg, actions, id, j, j + 1) <==>
              actions[j].Period? && id in actions[j].dead && !Overdue(cfg, actions[j].now, actions[j].now)
  {
    if actions[j].Period? { assert StaysBuried(cfg, actions, id, j, j) <==> !Overdue(cfg, actions[j].now, actions[j].now); }
  }

  /** In every run, a declaration is remembered with its time if and only if a period made
      it and none since made it again or found it overdue. */
  lemma {:induction false} GraveIff(cfg: Config, ss: seq<Service>, actions: seq<Action>, id: NodeId, j: nat, t: nat)
    requires SwimRuns.IsRun(cfg, ss, actions) && j <= |actions|
    ensures Grave(ss[j].detector, id) == Some(t) <==>
              exists i: nat :: BuriedSince(cfg, actions, id, i, j) && actions[i].now == t
    decreases j
  {
    hide SwimRuns.IsRun, Ticked, Received, BuriedSince, StaysBuried, Overdue;
    BuriedRange(cfg, actions, id, j);
    if j == 0 {
      NoGraves(cfg, ss, actions);
    } else {
      var n := j - 1;
      BuriedRange(cfg, actions, id, n);
      SwimRuns.RunPrefix(cfg, ss, actions, n);
      GraveIff(cfg, ss, actions, id, n, t);
      var s, a := ss[n], actions[n];
      match a {
        case Seed(_, _) =>
        case Receive(env) => ReceiveGrave(cfg, s, env, ss[j], id);
        case Period(now, dead, removed) => PeriodGrave(cfg, s, now, dead, removed, ss[j], id);
      }
      BuriedNow(cfg, actions, id, n);
      forall i | 0 <= i < n
        ensures BuriedSince(cfg, actions, id, i, j) <==>
                  BuriedSince(cfg, actions, id, i, n) && (a.Period? ==> actions[i].Period? && StaysBuried(cfg, actions, id, i, n))
      { BuriedNext(cfg, actions, id, i, n); BuriedAt(cfg, actions, id, i, n); }
      forall i | 0 <= i < n && a.Period? && BuriedSince(cfg, actions, id, i, n)
        ensures StaysBuried(cfg, actions, id, i, n) <==> id !in a.dead && !Overdue(cfg, a.now, actions[i].now)
      { BuriedAt(cfg, actions, id, i, n); StaysIff(cfg, actions, id, i, n); }
    }
  }

  lemma StaysIff(cfg: Config, actions: seq<Action>, id: NodeId, i: nat, k: nat)
    requires i < k < |actions| && actions[i].Period? && actions[k].Period?
    ensures StaysBuried(cfg, actions, id, i, k) <==> id !in actions[k].dead && !Overdue(cfg, actions[k].now, actions[i].now)
  {
  }

  lemma BuriedAt(cfg: Config, actions: seq<Action>, id: NodeId, i: nat, j: nat)
    ensures BuriedSince(cfg, actions, id, i, j) ==> i < j <= |actions| && actions[i].Period?
  {
  }

  lemma BuriedRange(cfg: Config, actions: seq<Action>, id: NodeId, j: nat)
    ensures forall i: nat :: BuriedSince(cfg, actions, id, i, j) ==> i < j <= |actions| && actions[i].Period?
  {
  }

  lemma NoGraves(cfg: Config, ss: seq<Service>, actions: seq<Action>)
    requires SwimRuns.IsRun(cfg, ss, actions)
    ensures |ss| > 0 && ss[0].detector.dead == map[]
  {
    hide SwimService.Next;
  }

  /** Exactly who is removed, in every run: a period removes a node if and only if the node
      is known dead then and a declaration of its death that still stands, possibly the
      period's own, is at least the removal delay old. */
  lemma RemovedExactlyWhen(cfg: Config, ss: seq<Service>, actions: seq<Action>, id: NodeId, j: nat)
    requires SwimRuns.IsRun(cfg, ss, actions) && j < |actions| && actions[j].Period?
    ensures var now := actions[j].now; var m := KnownAtRemoval(cfg, ss[j], now, id);
            id in actions[j].removed <==>
              && m.Some? && m.value.state == Dead
              && if id in actions[j].dead then Overdue(cfg, now, now)
                 else exists i: nat :: BuriedSince(cfg, actions, id, i, j) && Overdue(cfg, now, actions[i].now)
    ensures id in actions[j].removed ==> id !in ss[j + 1].members.list
  {
    hide SwimRuns.IsRun, Ticked, BuriedSince, Overdue, KnownAtRemoval;
    var a := actions[j];
    SwimRuns.RunPrefix(cfg, ss, actions, j);
    PeriodGrave(cfg, ss[j], a.now, a.dead, a.removed, ss[j + 1], id);
    BuriedRange(cfg, actions, id, j);
    var g := Grave(ss[j].detector, id);
    if g.Some? { GraveIff(cfg, ss, actions, id, j, g.value); }
    forall i: nat | BuriedSince(cfg, actions, id, i, j) ensures g == Some(actions[i].now) {
      GraveIff(cfg, ss, actions, id, j, actions[i].now);
    }
  }
}

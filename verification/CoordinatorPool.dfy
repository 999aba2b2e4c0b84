/** The pool of workers and the answers of a coordinator over every run: ids are handed out
    once, the pool keeps its bound, and every answer has a cause. */
module CoordinatorPool {
  import opened Values
  import opened Coordinator
  import opened CoordinatorChoice
  import opened CoordinatorRuns

  // ---------------------------------------------------------------------------
  // The pool
  // ---------------------------------------------------------------------------

  ghost predicate DistinctIds(ws: seq<Worker>)
  {
    forall i, j :: 0 <= i < j < |ws| ==> ws[i].id != ws[j].id
  }

  ghost predicate IdsFrom(ws: seq<Worker>, vs: seq<Worker>)
  {
    DistinctIds(vs) && |vs| <= |ws| && forall v :: v in vs ==> exists w :: w in ws && w.id == v.id
  }

  /** Ids are distinct and were handed out, and the pool is within its bound. */
  ghost predicate PoolOk(s: System)
  {
    && DistinctIds(s.workers)
    && (forall w :: w in s.workers ==> 1 <= w.id <= s.nextId)
    && (s.maxWorkers > 0 ==> |s.workers| <= s.maxWorkers)
  }

  lemma FewerIds(s: System, ws: seq<Worker>)
    requires PoolOk(s) && IdsFrom(s.workers, ws)
    ensures PoolOk(s.(workers := ws))
  {
  }

  lemma {:induction false} WithoutIds(ws: seq<Worker>, gone: set<Pid>, vs: seq<Worker>)
    requires Without(ws, gone, vs) && DistinctIds(ws)
    ensures IdsFrom(ws, vs)
    decreases |ws|
  {
    WithoutShorter(ws, gone, vs);
    WithoutMembers(ws, gone, vs);
    if ws != [] {
      if ws[0].pid in gone {
        WithoutIds(ws[1..], gone, vs);
      } else {
        WithoutIds(ws[1..], gone, vs[1..]);
        WithoutMembers(ws[1..], gone, vs[1..]);
        forall i, j | 0 <= i < j < |vs| ensures vs[i].id != vs[j].id {
          if i == 0 { assert vs[1..][j - 1] in ws[1..]; } else { assert vs[1..][i - 1].id != vs[1..][j - 1].id; }
        }
      }
    }
  }

  /** The same workers in the same places, whatever their counters. */
  lemma SameIds(ws: seq<Worker>, vs: seq<Worker>)
    requires DistinctIds(ws) && |vs| == |ws| && forall i :: 0 <= i < |ws| ==> vs[i].id == ws[i].id
    ensures IdsFrom(ws, vs)
  {
    forall v | v in vs ensures exists w :: w in ws && w.id == v.id {
      var i :| 0 <= i < |vs| && vs[i] == v;
      assert ws[i] in ws;
    }
  }

  lemma IdsTrans(a: seq<Worker>, b: seq<Worker>, c: seq<Worker>)
    requires IdsFrom(a, b) && IdsFrom(b, c)
    ensures IdsFrom(a, c)
  {
  }

  lemma RetireIds(ws: seq<Worker>, pid: Pid)
    requires DistinctIds(ws)
    ensures IdsFrom(ws, Retire(ws, pid))
  {
    hide DistinctIds;
    RetireIsRemove(ws, pid);
    WithoutNone(ws);
    WithoutMore(ws, {}, ws, pid);
    WithoutIds(ws, {} + {pid}, RemovePid(ws, pid));
  }

  lemma DispatchIds(ws: seq<Worker>, live: set<Pid>, routable: set<Pid>, attempts: nat)
    requires DistinctIds(ws)
    ensures IdsFrom(ws, Dispatch(ws, live, routable, attempts).0)
  {
    hide Dispatch, Without, PickIndex, Load;
    var gone, rest := DispatchShape(ws, live, routable, attempts);
    WithoutIds(ws, gone, rest);
    var ws' := Dispatch(ws, live, routable, attempts).0;
    if ws' != rest {
      SameIds(rest, ws');
      IdsTrans(ws, rest, ws');
    }
  }

  lemma PlacePool(s: System, task: nat, live: set<Pid>, routable: set<Pid>, attempts: nat)
    requires PoolOk(s) && task < |s.tried|
    ensures PoolOk(Place(s, task, live, routable, attempts))
  {
    hide Dispatch, Unreached, IdsFrom;
    DispatchIds(s.workers, live, routable, attempts);
    FewerIds(s, Dispatch(s.workers, live, routable, attempts).0);
  }

  lemma SwapRemoveIds(ws: seq<Worker>, i: nat)
    requires DistinctIds(ws) && i < |ws|
    ensures var vs := SwapRemove(ws, i);
            IdsFrom(ws, vs) && forall w :: w in vs <==> w in ws && w.id != ws[i].id
  {
    var vs, n := SwapRemove(ws, i), |ws| - 1;
    forall w | w in ws && w.id != ws[i].id ensures w in vs {
      var j :| 0 <= j < |ws| && ws[j] == w;
      if j == n { assert vs[i] == w; } else { assert vs[j] == w; }
    }
  }

  lemma ApplyPool(s: System, a: Action)
    requires PoolOk(s)
    ensures PoolOk(Apply(s, a))
  {
    hide Place, Retire, Complete, Drop, SwapRemove, IdsFrom;
    match a
    case Register(pid) =>
    case Unregister(id) =>
      var i := FindId(s.workers, id);
      if i < |s.workers| { SwapRemoveIds(s.workers, i); FewerIds(s, SwapRemove(s.workers, i)); }
    case Submit(live, routable) => PlacePool(Opened(s), |s.tried|, live, routable, |s.workers|);
    case Reply(_, _) =>
    case Lose(_, _) =>
    case Handle(k, live, routable) => if k < |s.items| { HandlePool(s, k, live, routable); }
  }

  lemma HandlePool(s: System, k: nat, live: set<Pid>, routable: set<Pid>)
    requires PoolOk(s) && k < |s.items|
    ensures PoolOk(Apply(s, Handle(k, live, routable)))
  {
    hide Place, Retire, Complete, Drop, PoolOk, IdsFrom;
    var it := s.items[k];
    PoolDistinct(s);
    match it.stage
    case Waiting =>
    case Answered(elapsed) =>
      CompleteIds(s.workers, it.pid, elapsed);
      FewerIds(s, Complete(s.workers, it.pid, elapsed));
      SamePool(s.(workers := Complete(s.workers, it.pid, elapsed)), Apply(s, Handle(k, live, routable)));
    case Retired =>
      RetireIds(s.workers, it.pid);
      FewerIds(s, Retire(s.workers, it.pid));
      SamePool(s.(workers := Retire(s.workers, it.pid)), Apply(s, Handle(k, live, routable)));
    case FailedOver =>
      RetireIds(s.workers, it.pid);
      FewerIds(s, Retire(s.workers, it.pid));
      var s1 := s.(items := Drop(s.items, k), workers := Retire(s.workers, it.pid));
      SamePool(s.(workers := Retire(s.workers, it.pid)), s1);
      if it.task < |s.tried| { PlacePool(s1, it.task, live, routable, it.remaining); }
  }

  lemma CompleteIds(ws: seq<Worker>, pid: Pid, elapsed: nat)
    requires DistinctIds(ws)
    ensures IdsFrom(ws, Complete(ws, pid, elapsed))
  {
    hide NewAverage;
    SameIds(ws, Complete(ws, pid, elapsed));
  }

  lemma PoolDistinct(s: System)
    requires PoolOk(s)
    ensures DistinctIds(s.workers)
  {
  }

  lemma SamePool(s: System, s': System)
    requires PoolOk(s) && s'.workers == s.workers && s'.nextId == s.nextId && s'.maxWorkers == s.maxWorkers
    ensures PoolOk(s')
  {
  }

  /** In every run worker ids are distinct, and a pool with a bound keeps it. */
  lemma {:induction false} PoolAlwaysOk(maxWorkers: nat, actions: seq<Action>)
    ensures PoolOk(Exec(maxWorkers, actions))
    decreases |actions|
  {
    hide PoolOk, Apply;
    if actions == [] {
      EmptyPool(maxWorkers);
    } else {
      PoolAlwaysOk(maxWorkers, actions[..|actions| - 1]);
      ApplyPool(Exec(maxWorkers, actions[..|actions| - 1]), actions[|actions| - 1]);
    }
  }

  lemma EmptyPool(maxWorkers: nat)
    ensures PoolOk(Start(maxWorkers))
  {
  }

  /** In every run a registration is refused if and only if a bounded pool is full, and
      otherwise adds one idle worker with a new id; unregistering takes out exactly the
      worker with that id. */
  lemma MembershipChanges(maxWorkers: nat, actions: seq<Action>, pid: Pid, id: WorkerId)
    ensures var s, s' := Exec(maxWorkers, actions), Exec(maxWorkers, actions + [Register(pid)]);
            if s.maxWorkers > 0 && |s.workers| == s.maxWorkers then s' == s
            else |s'.workers| == |s.workers| + 1 && s'.workers[..|s.workers|] == s.workers
                 && var w := s'.workers[|s.workers|];
                    w.pid == pid && w.inFlight == w.completed == 0 && forall v :: v in s.workers ==> v.id < w.id
    ensures var s, s' := Exec(maxWorkers, actions), Exec(maxWorkers, actions + [Unregister(id)]);
            forall w :: w in s'.workers <==> w in s.workers && w.id != id
  {
    hide Exec, SwapRemove;
    PoolAlwaysOk(maxWorkers, actions);
    ExecSnoc(maxWorkers, actions, Register(pid));
    ExecSnoc(maxWorkers, actions, Unregister(id));
    var s := Exec(maxWorkers, actions);
    BoundKept(maxWorkers, actions);
    var i := FindId(s.workers, id);
    if i < |s.workers| { SwapRemoveIds(s.workers, i); } else { NotListed(s.workers, id); }
  }

  lemma {:induction false} NotListed(ws: seq<Worker>, id: WorkerId)
    requires FindId(ws, id) == |ws|
    ensures forall w :: w in ws ==> w.id != id
    decreases |ws|
  {
    if ws != [] {
      NotListed(ws[1..], id);
      assert ws == [ws[0]] + ws[1..];
    }
  }

  lemma {:induction false} BoundKept(maxWorkers: nat, actions: seq<Action>)
    ensures Exec(maxWorkers, actions).maxWorkers == maxWorkers
    decreases |actions|
  {
    if actions != [] {
      hide Apply;
      BoundKept(maxWorkers, actions[..|actions| - 1]);
      StepKeepsBound(Exec(maxWorkers, actions[..|actions| - 1]), actions[|actions| - 1]);
    }
  }

  lemma StepKeepsBound(s: System, a: Action)
    ensures Apply(s, a).maxWorkers == s.maxWorkers
  {
    hide Dispatch, Drop, Retire, Complete, SwapRemove, Unreached;
  }

  // ---------------------------------------------------------------------------
  // Answers
  // ---------------------------------------------------------------------------

  /** The step is why `r` was sent: the worker replied, it died or timed out on the last
      attempt, or nobody was left to send the task to. */
  ghost predicate Causes(s: System, a: Action, r: Sent)
  {
    match r.answer
    case Result => a.Reply? && WaitingOn(s, a.k, r.task)
    case WorkerDied => a.Lose? && a.died && WaitingOn(s, a.k, r.task) && s.items[a.k].remaining == 0
    case TimedOut => a.Lose? && !a.died && WaitingOn(s, a.k, r.task) && s.items[a.k].remaining == 0
    case NoneLeft =>
      || (a.Submit? && r.task == |s.tried| && forall w :: w in s.workers ==> !Usable(w, a.live, a.routable))
      || (&& a.Handle? && a.k < |s.items| && s.items[a.k].stage == FailedOver && s.items[a.k].task == r.task
          && NowhereToGo(RemovePid(s.workers, s.items[a.k].pid), a.live, a.routable, s.items[a.k].remaining))
  }

  ghost predicate WaitingOn(s: System, k: nat, task: nat)
  {
    k < |s.items| && s.items[k].stage == Waiting && s.items[k].task == task
  }

  /** No worker is usable, or the attempts do not reach to the first that is. */
  ghost predicate NowhereToGo(ws: seq<Worker>, live: set<Pid>, routable: set<Pid>, attempts: nat)
  {
    || (forall w :: w in ws ==> !Usable(w, live, routable))
    || exists b: nat :: First(ws, live, routable, b) && |Costly(ws, live, routable, b)| >= attempts
  }

  lemma RefusedNowhere(ws: seq<Worker>, live: set<Pid>, routable: set<Pid>, attempts: nat)
    requires Dispatch(ws, live, routable, attempts).1.NoWorkers?
    ensures NowhereToGo(ws, live, routable, attempts)
  {
    hide Dispatch, First, Costly;
    if exists w :: w in ws && Usable(w, live, routable) {
      var b := FirstExists(ws, live, routable);
      FirstInRange(ws, live, routable, b);
      DispatchOutcome(ws, live, routable, attempts, b);
    }
  }

  lemma PlaceReplies(s: System, task: nat, live: set<Pid>, routable: set<Pid>, attempts: nat)
    requires task < |s.tried|
    ensures var s' := Place(s, task, live, routable, attempts);
            if Dispatch(s.workers, live, routable, attempts).1.NoWorkers?
            then s'.replies == s.replies + [Sent(task, NoneLeft)] else s'.replies == s.replies
  {
    hide Dispatch, Unreached;
  }

  lemma StepReplies(s: System, a: Action)
    ensures var s' := Apply(s, a);
            s'.replies == s.replies || exists r :: s'.replies == s.replies + [r] && Causes(s, a, r)
  {
    hide Place, Retire, Complete, Drop, SwapRemove, Dispatch, NowhereToGo;
    var s' := Apply(s, a);
    match a
    case Register(_) =>
    case Unregister(_) =>
    case Reply(k, _) =>
      if k < |s.items| && s.items[k].stage == Waiting { assert Causes(s, a, Sent(s.items[k].task, Result)); }
    case Lose(k, died) =>
      if k < |s.items| && s.items[k].stage == Waiting && s.items[k].remaining == 0 {
        assert Causes(s, a, Sent(s.items[k].task, if died then WorkerDied else TimedOut));
      }
    case Submit(live, routable) =>
      PlaceReplies(Opened(s), |s.tried|, live, routable, |s.workers|);
      RefusedIff(s.workers, live, routable, |s.workers|);
      if s'.replies != s.replies { assert Causes(s, a, Sent(|s.tried|, NoneLeft)); }
    case Handle(k, live, routable) =>
      if k < |s.items| && s.items[k].stage == FailedOver && s.items[k].task < |s.tried| {
        var it := s.items[k];
        var s1 := s.(items := Drop(s.items, k), workers := Retire(s.workers, it.pid));
        PlaceReplies(s1, it.task, live, routable, it.remaining);
        RetireIsRemove(s.workers, it.pid);
        if s'.replies != s.replies {
          RefusedNowhere(s1.workers, live, routable, it.remaining);
          assert Causes(s, a, Sent(it.task, NoneLeft));
        }
      }
  }

  /** In every run each answer was caused by a step of the run that warrants it. */
  lemma {:induction false} AnswersHaveCauses(maxWorkers: nat, actions: seq<Action>, r: Sent)
    requires r in Exec(maxWorkers, actions).replies
    ensures exists k :: 0 <= k < |actions| && Causes(Exec(maxWorkers, actions[..k]), actions[k], r)
    decreases |actions|
  {
    hide Apply, Causes;
    if actions != [] {
      var n := |actions| - 1;
      var init := actions[..n];
      var s := Exec(maxWorkers, init);
      StepReplies(s, actions[n]);
      if r in s.replies {
        AnswersHaveCauses(maxWorkers, init, r);
        var k :| 0 <= k < n && Causes(Exec(maxWorkers, init[..k]), init[k], r);
        assert init[..k] == actions[..k];
      }
    }
  }
}

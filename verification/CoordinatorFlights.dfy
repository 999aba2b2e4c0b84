/** When no process is registered twice, a worker's in-flight count is the number of
    its dispatches still outstanding, and no task is sent to the same worker twice. */
module CoordinatorFlights {
  import opened Values
  import opened Coordinator
  import opened CoordinatorRuns
  import CoordinatorChoice

  ghost predicate Distinct(ws: seq<Worker>)
  {
    forall i, j :: 0 <= i < j < |ws| ==> ws[i].pid != ws[j].pid
  }

  ghost predicate Listed(ws: seq<Worker>, pid: Pid)
  {
    exists w :: w in ws && w.pid == pid
  }

  ghost predicate NoRepeats(ps: seq<Pid>)
  {
    forall i, j :: 0 <= i < j < |ps| ==> ps[i] != ps[j]
  }

  /** Every worker's count is the number of items on it. */
  ghost predicate Counted(ws: seq<Worker>, items: seq<Item>)
  {
    forall w :: w in ws ==> w.inFlight == Count(items, On(w.pid))
  }

  ghost predicate AllKnown(s: System)
  {
    && (forall w :: w in s.workers ==> w.pid in s.registered)
    && (forall k :: 0 <= k < |s.items| ==> s.items[k].pid in s.registered)
    && (forall t, p :: 0 <= t < |s.tried| && p in s.tried[t] ==> p in s.registered)
  }

  /** A task that is owed an answer was last sent to the worker of its item, and the
      workers it was sent to before are gone. */
  ghost predicate LastTried(ws: seq<Worker>, ps: seq<Pid>, pid: Pid)
  {
    ps != [] && ps[|ps| - 1] == pid && forall j :: 0 <= j < |ps| - 1 ==> !Listed(ws, ps[j])
  }

  ghost predicate Settled(s: System)
  {
    && (forall t :: 0 <= t < |s.tried| ==> NoRepeats(s.tried[t]))
    && (forall k :: 0 <= k < |s.items| && s.items[k].task < |s.tried| && Holds(s.items[k]) ==>
          LastTried(s.workers, s.tried[s.items[k].task], s.items[k].pid))
  }

  ghost predicate Tracked(s: System)
  {
    Distinct(s.workers) && Counted(s.workers, s.items) && AllKnown(s) && Settled(s)
  }

  // ---------------------------------------------------------------------------
  // Dropping workers
  // ---------------------------------------------------------------------------

  lemma {:induction false} WithoutDistinct(ws: seq<Worker>, gone: set<Pid>, vs: seq<Worker>)
    requires Without(ws, gone, vs) && Distinct(ws)
    ensures Distinct(vs)
    decreases |ws|
  {
    if ws != [] {
      if ws[0].pid in gone {
        WithoutDistinct(ws[1..], gone, vs);
      } else {
        WithoutDistinct(ws[1..], gone, vs[1..]);
        WithoutMembers(ws[1..], gone, vs[1..]);
        forall i, j | 0 <= i < j < |vs| ensures vs[i].pid != vs[j].pid {
          if i == 0 { assert vs[1..][j - 1] in ws[1..]; }
          else { assert vs[1..][i - 1].pid != vs[1..][j - 1].pid; }
        }
      }
    }
  }

  lemma FewerWorkers(s: System, ws: seq<Worker>)
    requires Tracked(s) && Distinct(ws) && forall w :: w in ws ==> w in s.workers
    ensures Tracked(s.(workers := ws))
  {
    var s' := s.(workers := ws);
    forall k | 0 <= k < |s.items| && s.items[k].task < |s.tried| && Holds(s.items[k])
      ensures LastTried(ws, s.tried[s.items[k].task], s.items[k].pid)
    { assert LastTried(s.workers, s.tried[s.items[k].task], s.items[k].pid); }
  }

  lemma SwapRemoveDistinct(ws: seq<Worker>, i: nat)
    requires Distinct(ws) && i < |ws|
    ensures Distinct(SwapRemove(ws, i)) && forall w :: w in SwapRemove(ws, i) ==> w in ws
  {
  }

  /** Retiring a process is removing it. */
  lemma RetireRemoves(ws: seq<Worker>, pid: Pid)
    requires Distinct(ws)
    ensures var vs := Retire(ws, pid);
            Distinct(vs) && (forall w :: w in vs ==> w in ws) && !Listed(vs, pid)
  {
    RemoveIgnores(ws, Lower(ws, pid), pid);
    WithoutNone(ws);
    WithoutMore(ws, {}, ws, pid);
    WithoutDistinct(ws, {} + {pid}, RemovePid(ws, pid));
  }

  // ---------------------------------------------------------------------------
  // Each step
  // ---------------------------------------------------------------------------

  lemma RegisterTracked(s: System, pid: Pid)
    requires Tracked(s) && pid !in s.registered
    ensures Tracked(Apply(s, Register(pid)))
  {
    if !(s.maxWorkers > 0 && |s.workers| >= s.maxWorkers) {
      var s' := Apply(s, Register(pid));
      var w := Worker(s.nextId + 1, pid, 0, 0, 0);
      assert s'.workers == s.workers + [w];
      forall i, j | 0 <= i < j < |s'.workers| ensures s'.workers[i].pid != s'.workers[j].pid {
        assert s'.workers[i] in s.workers;
      }
      CountNone(s.items, On(pid));
      forall k | 0 <= k < |s.items| && s.items[k].task < |s.tried| && Holds(s.items[k])
        ensures LastTried(s'.workers, s.tried[s.items[k].task], s.items[k].pid)
      {
        var ps := s.tried[s.items[k].task];
        assert LastTried(s.workers, ps, s.items[k].pid);
        forall j | 0 <= j < |ps| - 1 ensures !Listed(s'.workers, ps[j]) {
          assert ps[j] in ps;
          assert !Listed(s.workers, ps[j]);
        }
      }
    }
  }

  lemma BumpCounted(ws: seq<Worker>, i: nat, items: seq<Item>, it: Item)
    requires Distinct(ws) && Counted(ws, items) && i < |ws| && it.pid == ws[i].pid
    ensures Distinct(Bump(ws, i)) && Counted(Bump(ws, i), items + [it])
  {
    var ws' := Bump(ws, i);
    forall w | w in ws' ensures w.inFlight == Count(items + [it], On(w.pid)) {
      var j :| 0 <= j < |ws'| && ws'[j] == w;
      assert ws[j] in ws;
      CountSnoc(items, it, On(w.pid));
    }
  }

  lemma BumpLists(ws: seq<Worker>, i: nat, pid: Pid)
    requires i < |ws|
    ensures Listed(Bump(ws, i), pid) <==> Listed(ws, pid)
  {
    var ws' := Bump(ws, i);
    if Listed(ws, pid) {
      var w :| w in ws && w.pid == pid;
      var j :| 0 <= j < |ws| && ws[j] == w;
      assert ws'[j] in ws';
    }
    if Listed(ws', pid) {
      var w :| w in ws' && w.pid == pid;
      var j :| 0 <= j < |ws'| && ws'[j] == w;
      assert ws[j] in ws;
    }
  }

  /** The task in hand goes to a worker it was not sent to before. */
  lemma SentSettled(s: System, task: nat, i: nat, remaining: nat)
    requires Tracked(s) && task < |s.tried| && i < |s.workers| && Count(s.items, Owing(task)) == 0
    requires forall j :: 0 <= j < |s.tried[task]| ==> !Listed(s.workers, s.tried[task][j])
    ensures var pid := s.workers[i].pid;
            Settled(Landed(s.(workers := Bump(s.workers, i)), task, SentTo(pid, remaining)))
  {
    var pid, ws := s.workers[i].pid, Bump(s.workers, i);
    var s' := Landed(s.(workers := ws), task, SentTo(pid, remaining));
    assert s.workers[i] in s.workers;
    assert Listed(s.workers, pid);
    assert NoRepeats(s'.tried[task]) by {
      assert NoRepeats(s.tried[task]);
    }
    forall k | 0 <= k < |s'.items| && s'.items[k].task < |s'.tried| && Holds(s'.items[k])
      ensures LastTried(ws, s'.tried[s'.items[k].task], s'.items[k].pid)
    {
      if k < |s.items| {
        assert s'.items[k] == s.items[k];
        if s.items[k].task == task { OwingCounted(s.items, k, task); }
        assert LastTried(s.workers, s.tried[s.items[k].task], s.items[k].pid);
      }
      forall p ensures Listed(ws, p) <==> Listed(s.workers, p) { BumpLists(s.workers, i, p); }
    }
  }

  lemma SentTracked(s: System, task: nat, i: nat, remaining: nat)
    requires Tracked(s) && task < |s.tried| && i < |s.workers| && Count(s.items, Owing(task)) == 0
    requires forall j :: 0 <= j < |s.tried[task]| ==> !Listed(s.workers, s.tried[task][j])
    ensures var pid := s.workers[i].pid;
            Tracked(Landed(s.(workers := Bump(s.workers, i)), task, SentTo(pid, remaining)))
  {
    hide Settled, Counted, Listed;
    var pid, ws := s.workers[i].pid, Bump(s.workers, i);
    SentSettled(s, task, i, remaining);
    BumpCounted(s.workers, i, s.items, Item(task, pid, remaining, Waiting));
    var s' := Landed(s.(workers := ws), task, SentTo(pid, remaining));
    assert s.workers[i] in s.workers;
    forall w | w in s'.workers ensures w.pid in s'.registered {
      var j :| 0 <= j < |ws| && ws[j] == w;
      assert s.workers[j] in s.workers;
    }
  }

  lemma PlaceTracked(s: System, task: nat, live: set<Pid>, routable: set<Pid>, attempts: nat)
    requires Tracked(s) && task < |s.tried| && Count(s.items, Owing(task)) == 0
    requires forall j :: 0 <= j < |s.tried[task]| ==> !Listed(s.workers, s.tried[task][j])
    ensures Tracked(Place(s, task, live, routable, attempts))
  {
    hide Dispatch, Without, PickIndex, Bump, Tracked;
    var (ws, target) := Dispatch(s.workers, live, routable, attempts);
    var gone, rest := DispatchShape(s.workers, live, routable, attempts);
    TrackedDistinct(s);
    WithoutDistinct(s.workers, gone, rest);
    WithoutMembers(s.workers, gone, rest);
    var s0 := Charge(s, task, |CoordinatorChoice.Unreached(s.workers, ws, live)|);
    ChargeTracked(s, s0);
    FewerWorkers(s0, rest);
    var s1 := s0.(workers := rest);
    if target.SentTo? {
      SentTracked(s1, task, PickIndex(rest), target.remaining);
    } else {
      AnsweringKeepsTracked(s1, Sent(task, NoneLeft));
    }
  }

  /** Wasted attempts do not concern the workers. */
  lemma ChargeTracked(s: System, s': System)
    requires Tracked(s) && s' == s.(wasted := s'.wasted)
    ensures Tracked(s')
  {
  }

  lemma TrackedDistinct(s: System)
    requires Tracked(s)
    ensures Distinct(s.workers)
  {
  }

  lemma AnsweringKeepsTracked(s: System, r: Sent)
    requires Tracked(s)
    ensures Tracked(s.(replies := s.replies + [r]))
  {
  }

  lemma SubmitTracked(s: System, live: set<Pid>, routable: set<Pid>)
    requires Tracked(s) && Bounded(s)
    ensures Tracked(Apply(s, Submit(live, routable)))
  {
    hide Place;
    var s1 := Opened(s);
    CountNone(s.items, Owing(|s.tried|));
    assert Tracked(s1) by {
      forall k | 0 <= k < |s1.items| && s1.items[k].task < |s1.tried| && Holds(s1.items[k])
        ensures LastTried(s1.workers, s1.tried[s1.items[k].task], s1.items[k].pid)
      { assert LastTried(s.workers, s.tried[s.items[k].task], s.items[k].pid); }
    }
    PlaceTracked(s1, |s.tried|, live, routable, |s.workers|);
  }

  lemma ResolveTracked(s: System, k: nat, stage: Stage)
    requires Tracked(s) && k < |s.items| && s.items[k].stage == Waiting
    ensures Tracked(Resolve(s, k, stage))
  {
    var s' := Resolve(s, k, stage);
    forall w | w in s'.workers ensures w.inFlight == Count(s'.items, On(w.pid)) {
      CountUpdate(s.items, k, s'.items[k], On(w.pid));
    }
    forall j | 0 <= j < |s'.items| && s'.items[j].task < |s'.tried| && Holds(s'.items[j])
      ensures LastTried(s'.workers, s'.tried[s'.items[j].task], s'.items[j].pid)
    { assert Holds(s.items[j]); }
  }

  lemma DropKeepsSettled(s: System, k: nat)
    requires Settled(s) && AllKnown(s) && k < |s.items|
    ensures var s' := s.(items := Drop(s.items, k)); Settled(s') && AllKnown(s')
  {
    var s' := s.(items := Drop(s.items, k));
    forall j | 0 <= j < |s'.items| ensures s'.items[j] == s.items[if j < k then j else j + 1] {}
  }

  /** The worker loses an item and its count goes down by one, never below zero. */
  lemma CompleteCounted(ws: seq<Worker>, items: seq<Item>, k: nat, elapsed: nat)
    requires Distinct(ws) && Counted(ws, items) && k < |items|
    ensures var ws' := Complete(ws, items[k].pid, elapsed);
            && Distinct(ws') && Counted(ws', Drop(items, k)) && |ws'| == |ws|
            && forall j :: 0 <= j < |ws| ==> ws'[j].pid == ws[j].pid
  {
    hide NewAverage;
    var pid := items[k].pid;
    var ws', i := Complete(ws, pid, elapsed), FindPid(ws, pid);
    forall w | w in ws' ensures w.inFlight == Count(Drop(items, k), On(w.pid)) {
      var j :| 0 <= j < |ws'| && ws'[j] == w;
      assert ws[j] in ws;
      CountDrop(items, k, On(w.pid));
    }
  }

  lemma CompleteTracked(s: System, k: nat, elapsed: nat)
    requires Tracked(s) && k < |s.items|
    ensures Tracked(s.(items := Drop(s.items, k), workers := Complete(s.workers, s.items[k].pid, elapsed)))
  {
    hide Counted, Complete, Drop;
    CompleteCounted(s.workers, s.items, k, elapsed);
    DropKeepsSettled(s, k);
    var s1 := s.(items := Drop(s.items, k));
    var ws := Complete(s.workers, s.items[k].pid, elapsed);
    SamePids(s1, ws);
  }

  lemma SamePids(s: System, ws: seq<Worker>)
    requires Settled(s) && AllKnown(s) && |ws| == |s.workers|
    requires forall j :: 0 <= j < |ws| ==> ws[j].pid == s.workers[j].pid
    ensures Settled(s.(workers := ws)) && AllKnown(s.(workers := ws))
  {
    forall p ensures Listed(ws, p) ==> Listed(s.workers, p) {
      if Listed(ws, p) {
        var w :| w in ws && w.pid == p;
        var j :| 0 <= j < |ws| && ws[j] == w;
        assert s.workers[j] in s.workers;
      }
    }
    forall w | w in ws ensures w.pid in s.registered {
      var j :| 0 <= j < |ws| && ws[j] == w;
      assert s.workers[j] in s.workers;
    }
    forall k | 0 <= k < |s.items| && s.items[k].task < |s.tried| && Holds(s.items[k])
      ensures LastTried(ws, s.tried[s.items[k].task], s.items[k].pid)
    { assert LastTried(s.workers, s.tried[s.items[k].task], s.items[k].pid); }
  }

  /** A failed worker is gone with its count, so its remaining items no longer matter. */
  lemma RetireTracked(s: System, k: nat)
    requires Tracked(s) && k < |s.items|
    ensures var s' := s.(items := Drop(s.items, k), workers := Retire(s.workers, s.items[k].pid));
            Tracked(s') && !Listed(s'.workers, s.items[k].pid)
  {
    hide Drop, Retire;
    var pid := s.items[k].pid;
    RetireRemoves(s.workers, pid);
    var ws := Retire(s.workers, pid);
    FewerWorkers(s, ws);
    DropKeepsSettled(s.(workers := ws), k);
    forall w | w in ws ensures w.inFlight == Count(Drop(s.items, k), On(w.pid)) {
      assert !Listed(ws, pid);
      CountDrop(s.items, k, On(w.pid));
    }
  }

  lemma HandleTracked(s: System, k: nat, live: set<Pid>, routable: set<Pid>)
    requires Tracked(s) && Bounded(s) && OneToken(s, None)
    ensures Tracked(Apply(s, Handle(k, live, routable)))
  {
    if k < |s.items| && s.items[k].stage != Waiting {
      hide Place, Retire, Complete, Drop, Count;
      var it := s.items[k];
      match it.stage
      case Answered(elapsed) => CompleteTracked(s, k, elapsed);
      case Retired => RetireTracked(s, k);
      case FailedOver =>
        RetireTracked(s, k);
        CountDrop(s.items, k, Owing(it.task));
        assert Tokens(s, it.task) == 1;
        NotTriedAgain(s, k);
        var s1 := s.(items := Drop(s.items, k), workers := Retire(s.workers, it.pid));
        PlaceTracked(s1, it.task, live, routable, it.remaining);
    }
  }

  /** With the failed worker retired, none of those the task was sent to is left. */
  lemma NotTriedAgain(s: System, k: nat)
    requires Tracked(s) && k < |s.items| && s.items[k].task < |s.tried| && Holds(s.items[k])
    ensures var ws, ps := Retire(s.workers, s.items[k].pid), s.tried[s.items[k].task];
            forall j :: 0 <= j < |ps| ==> !Listed(ws, ps[j])
  {
    hide Retire, Count;
    var it := s.items[k];
    var ps := s.tried[it.task];
    assert LastTried(s.workers, ps, it.pid);
    RetireRemoves(s.workers, it.pid);
    forall j | 0 <= j < |ps| ensures !Listed(Retire(s.workers, it.pid), ps[j]) {
      if j < |ps| - 1 { assert !Listed(s.workers, ps[j]); }
    }
  }

  // ---------------------------------------------------------------------------
  // Runs
  // ---------------------------------------------------------------------------

  /** No process is registered twice. */
  ghost predicate FreshPids(maxWorkers: nat, actions: seq<Action>)
  {
    forall i :: 0 <= i < |actions| && actions[i].Register? ==>
      actions[i].pid !in Exec(maxWorkers, actions[..i]).registered
  }

  lemma ApplyTracked(s: System, a: Action)
    requires Tracked(s) && Bounded(s) && OneToken(s, None)
    requires a.Register? ==> a.pid !in s.registered
    ensures Tracked(Apply(s, a))
  {
    match a
    case Register(pid) => RegisterTracked(s, pid);
    case Unregister(id) =>
      var i := FindId(s.workers, id);
      if i < |s.workers| {
        SwapRemoveDistinct(s.workers, i);
        FewerWorkers(s, SwapRemove(s.workers, i));
      }
    case Submit(live, routable) => SubmitTracked(s, live, routable);
    case Reply(k, elapsed) =>
      if k < |s.items| && s.items[k].stage == Waiting {
        ResolveTracked(s, k, Answered(elapsed));
        AnsweringKeepsTracked(Resolve(s, k, Answered(elapsed)), Sent(s.items[k].task, Result));
      }
    case Lose(k, died) =>
      if k < |s.items| && s.items[k].stage == Waiting {
        var stage := if s.items[k].remaining == 0 then Retired else FailedOver;
        ResolveTracked(s, k, stage);
        AnsweringKeepsTracked(Resolve(s, k, stage), Sent(s.items[k].task, if died then WorkerDied else TimedOut));
      }
    case Handle(k, live, routable) => HandleTracked(s, k, live, routable);
  }

  lemma {:induction false} AlwaysTracked(maxWorkers: nat, actions: seq<Action>)
    requires FreshPids(maxWorkers, actions)
    ensures Tracked(Exec(maxWorkers, actions))
    decreases |actions|
  {
    if actions != [] {
      hide Tracked, Bounded, OneToken, Apply, FreshPids;
      var n := |actions| - 1;
      FreshPrefix(maxWorkers, actions);
      AlwaysTracked(maxWorkers, actions[..n]);
      AnsweredOnce(maxWorkers, actions[..n]);
      ApplyTracked(Exec(maxWorkers, actions[..n]), actions[n]);
    }
  }

  lemma FreshPrefix(maxWorkers: nat, actions: seq<Action>)
    requires actions != [] && FreshPids(maxWorkers, actions)
    ensures var n := |actions| - 1;
            && FreshPids(maxWorkers, actions[..n])
            && (actions[n].Register? ==> actions[n].pid !in Exec(maxWorkers, actions[..n]).registered)
  {
    hide Exec;
    var init := actions[..|actions| - 1];
    forall i | 0 <= i < |init| ensures init[..i] == actions[..i] && init[i] == actions[i] {}
  }

  /** In every run without a process registered twice, a worker's in-flight count is
      the number of its dispatches not yet processed, and each task was sent to
      distinct workers. */
  lemma InFlightIsOutstanding(maxWorkers: nat, actions: seq<Action>)
    requires FreshPids(maxWorkers, actions)
    ensures var s := Exec(maxWorkers, actions);
            && (forall i :: 0 <= i < |s.workers| ==> s.workers[i].inFlight == Count(s.items, On(s.workers[i].pid)))
            && (forall t :: 0 <= t < |s.tried| ==> NoRepeats(s.tried[t]))
  {
    hide Exec, Count, On;
    AlwaysTracked(maxWorkers, actions);
    var s := Exec(maxWorkers, actions);
    forall i | 0 <= i < |s.workers| ensures s.workers[i].inFlight == Count(s.items, On(s.workers[i].pid)) {
      assert s.workers[i] in s.workers;
    }
  }

  /** In such runs the saturating decrement of a worker's count never saturates. */
  lemma NeverSaturates(maxWorkers: nat, actions: seq<Action>, k: nat, i: nat)
    requires FreshPids(maxWorkers, actions)
    requires var s := Exec(maxWorkers, actions);
             k < |s.items| && i < |s.workers| && s.workers[i].pid == s.items[k].pid
    ensures Exec(maxWorkers, actions).workers[i].inFlight >= 1
  {
    hide Exec;
    InFlightIsOutstanding(maxWorkers, actions);
    var s := Exec(maxWorkers, actions);
    CountDrop(s.items, k, On(s.items[k].pid));
  }
}

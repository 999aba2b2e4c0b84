/** Where a dispatch ends, read off the pool it starts from: the least-loaded worker that
    is alive and reachable, unless the attempts are used up on workers that are alive but
    not reachable and would be picked before it. */
module CoordinatorChoice {
  import opened Values
  import opened Coordinator

  /** Worker `i` is picked before worker `j`: less loaded, then fewer tasks completed,
      then listed earlier. */
  ghost predicate Ahead(ws: seq<Worker>, i: nat, j: nat)
    requires i < |ws| && j < |ws|
  {
    || Load(ws[i]) < Load(ws[j])
    || (Load(ws[i]) == Load(ws[j]) && ws[i].completed < ws[j].completed)
    || (Load(ws[i]) == Load(ws[j]) && ws[i].completed == ws[j].completed && i < j)
  }

  ghost predicate Usable(w: Worker, live: set<Pid>, routable: set<Pid>)
  {
    w.pid in live && w.pid in routable
  }

  /** Worker `b` is the first to be picked of those that are alive and reachable. */
  ghost predicate First(ws: seq<Worker>, live: set<Pid>, routable: set<Pid>, b: nat)
  {
    && b < |ws| && Usable(ws[b], live, routable)
    && forall j :: 0 <= j < |ws| && j != b && Usable(ws[j], live, routable) ==> Ahead(ws, b, j)
  }

  /** The processes picked before worker `b` that are alive but not reachable: each costs
      an attempt. */
  ghost function Costly(ws: seq<Worker>, live: set<Pid>, routable: set<Pid>, b: nat): set<Pid>
    requires b < |ws|
  {
    set i | 0 <= i < |ws| && ws[i].pid in live && ws[i].pid !in routable && Ahead(ws, i, b) :: ws[i].pid
  }

  // ---------------------------------------------------------------------------
  // Taking one process out
  // ---------------------------------------------------------------------------

  /** `vs` is `ws` without the workers of `pid`; `from` says where they come from. */
  ghost predicate Survivors(ws: seq<Worker>, pid: Pid, vs: seq<Worker>, from: seq<nat>)
  {
    && |from| == |vs|
    && (forall k :: 0 <= k < |from| ==> from[k] < |ws| && vs[k] == ws[from[k]] && vs[k].pid != pid)
    && (forall k, l :: 0 <= k < l < |from| ==> from[k] < from[l])
    && (forall i :: 0 <= i < |ws| && ws[i].pid != pid ==> i in from)
  }

  lemma {:induction false} RemovalKeepsOrder(ws: seq<Worker>, pid: Pid) returns (from: seq<nat>)
    ensures Survivors(ws, pid, RemovePid(ws, pid), from)
    decreases |ws|
  {
    hide RemovePid, Survivors;
    if ws == [] {
      from := [];
      NoSurvivors(ws, pid);
    } else {
      var init, w := ws[..|ws| - 1], ws[|ws| - 1];
      var earlier := RemovalKeepsOrder(init, pid);
      from := OneMore(init, w, pid, RemovePid(init, pid), earlier);
      assert init + [w] == ws by { SplitLast(ws); }
      RemoveLast(ws, pid);
    }
  }

  lemma SplitLast(ws: seq<Worker>)
    requires ws != []
    ensures ws[..|ws| - 1] + [ws[|ws| - 1]] == ws
  {
  }

  lemma NoSurvivors(ws: seq<Worker>, pid: Pid)
    requires ws == []
    ensures Survivors(ws, pid, RemovePid(ws, pid), [])
  {
  }

  lemma OneMore(ws: seq<Worker>, w: Worker, pid: Pid, vs: seq<Worker>, earlier: seq<nat>) returns (from: seq<nat>)
    requires Survivors(ws, pid, vs, earlier)
    ensures Survivors(ws + [w], pid, vs + (if w.pid == pid then [] else [w]), from)
  {
    hide Survivors;
    if w.pid == pid {
      from := earlier;
      assert vs + [] == vs;
      SkipOne(ws, w, pid, vs, earlier);
    } else {
      from := earlier + [|ws|];
      TakeOne(ws, w, pid, vs, earlier);
    }
  }

  lemma SkipOne(ws: seq<Worker>, w: Worker, pid: Pid, vs: seq<Worker>, from: seq<nat>)
    requires Survivors(ws, pid, vs, from) && w.pid == pid
    ensures Survivors(ws + [w], pid, vs, from)
  {
    var all := ws + [w];
    forall i | 0 <= i < |all| && all[i].pid != pid ensures i in from { assert all[i] == ws[i]; }
  }

  lemma TakeOne(ws: seq<Worker>, w: Worker, pid: Pid, vs: seq<Worker>, from: seq<nat>)
    requires Survivors(ws, pid, vs, from) && w.pid != pid
    ensures Survivors(ws + [w], pid, vs + [w], from + [|ws|])
  {
    var all, from' := ws + [w], from + [|ws|];
    assert from'[|from|] == |ws|;
    forall i | 0 <= i < |all| && all[i].pid != pid ensures i in from' {
      if i < |ws| { assert all[i] == ws[i] && i in from; }
    }
  }

  lemma {:induction false} RemoveLast(ws: seq<Worker>, pid: Pid)
    requires ws != []
    ensures var n := |ws| - 1;
            RemovePid(ws, pid) == RemovePid(ws[..n], pid) + if ws[n].pid == pid then [] else [ws[n]]
    decreases |ws|
  {
    var n := |ws| - 1;
    if n > 0 {
      RemoveLast(ws[1..], pid);
      assert ws[1..][..n - 1] == ws[..n][1..];
    }
  }

  lemma SurvivorsAhead(ws: seq<Worker>, pid: Pid, vs: seq<Worker>, from: seq<nat>, k: nat, l: nat)
    requires Survivors(ws, pid, vs, from) && k < |vs| && l < |vs|
    ensures Ahead(vs, k, l) <==> Ahead(ws, from[k], from[l])
  {
    hide Load;
    assert k < l ==> from[k] < from[l];
    assert l < k ==> from[l] < from[k];
  }

  lemma SurvivorsFirst(ws: seq<Worker>, pid: Pid, vs: seq<Worker>, from: seq<nat>, live: set<Pid>, routable: set<Pid>, b: nat)
    requires Survivors(ws, pid, vs, from) && b < |vs| && First(ws, live, routable, from[b])
    ensures First(vs, live, routable, b)
  {
    hide Ahead;
    forall j | 0 <= j < |vs| && j != b && Usable(vs[j], live, routable) ensures Ahead(vs, b, j) {
      SurvivorsAhead(ws, pid, vs, from, b, j);
      assert from[j] != from[b];
    }
  }

  lemma SurvivorsCost(ws: seq<Worker>, pid: Pid, vs: seq<Worker>, from: seq<nat>, live: set<Pid>, routable: set<Pid>, b: nat)
    requires Survivors(ws, pid, vs, from) && b < |vs|
    ensures Costly(vs, live, routable, b) == Costly(ws, live, routable, from[b]) - {pid}
  {
    hide Ahead;
    forall p | p in Costly(ws, live, routable, from[b]) && p != pid ensures p in Costly(vs, live, routable, b) {
      var k :| 0 <= k < |ws| && ws[k].pid == p && ws[k].pid in live && ws[k].pid !in routable && Ahead(ws, k, from[b]);
      var l :| 0 <= l < |from| && from[l] == k;
      SurvivorsAhead(ws, pid, vs, from, l, b);
    }
    forall p | p in Costly(vs, live, routable, b) ensures p in Costly(ws, live, routable, from[b]) && p != pid {
      var l :| 0 <= l < |vs| && vs[l].pid == p && vs[l].pid in live && vs[l].pid !in routable && Ahead(vs, l, b);
      SurvivorsAhead(ws, pid, vs, from, l, b);
    }
  }

  /** Taking out the process picked first, if it is not usable, leaves the first usable
      worker the first, and takes that process off the costly ones. */
  lemma RemovalKeepsFirst(ws: seq<Worker>, live: set<Pid>, routable: set<Pid>, b: nat) returns (b': nat)
    requires First(ws, live, routable, b) && !Usable(ws[PickIndex(ws)], live, routable)
    ensures var pid := ws[PickIndex(ws)].pid; var vs := RemovePid(ws, pid);
            && First(vs, live, routable, b') && vs[b'] == ws[b] && |vs| < |ws|
            && |Costly(vs, live, routable, b')| == |Costly(ws, live, routable, b)| - (if pid in live then 1 else 0)
  {
    hide RemovePid, PickIndex;
    var i := PickIndex(ws);
    var pid := ws[i].pid;
    var vs := RemovePid(ws, pid);
    RetireBumped(ws, i);
    PickedIsAhead(ws, b);
    var from := RemovalKeepsOrder(ws, pid);
    hide Ahead;
    b' :| 0 <= b' < |from| && from[b'] == b;
    SurvivorsFirst(ws, pid, vs, from, live, routable, b');
    SurvivorsCost(ws, pid, vs, from, live, routable, b');
    assert pid in Costly(ws, live, routable, b) <==> pid in live;
  }

  lemma PickedIsAhead(ws: seq<Worker>, j: nat)
    requires j < |ws| && j != PickIndex(ws)
    ensures Ahead(ws, PickIndex(ws), j)
  {
    hide Load, PickIndex;
  }

  // ---------------------------------------------------------------------------
  // One pick at a time
  // ---------------------------------------------------------------------------

  lemma DispatchPicks(ws: seq<Worker>, live: set<Pid>, routable: set<Pid>, attempts: nat)
    requires ws != [] && attempts > 0
    ensures var i := PickIndex(ws); var pid := ws[i].pid;
            Dispatch(ws, live, routable, attempts) ==
            if pid !in live then Dispatch(RemovePid(ws, pid), live, routable, attempts)
            else if pid in routable then (Bump(ws, i), SentTo(pid, attempts - 1))
            else Dispatch(RemovePid(ws, pid), live, routable, attempts - 1)
  {
    hide PickIndex, RemovePid, Retire, Bump;
    RetireBumped(ws, PickIndex(ws));
  }

  lemma NothingToDo(ws: seq<Worker>, live: set<Pid>, routable: set<Pid>, attempts: nat)
    ensures ws == [] || attempts == 0 ==> Dispatch(ws, live, routable, attempts) == (ws, NoWorkers)
  {
  }

  /** The processes dropped from the pool although they were alive. */
  function Unreached(ws: seq<Worker>, ws': seq<Worker>, live: set<Pid>): set<Pid>
  {
    PidsOf(ws) * live - PidsOf(ws')
  }

  lemma BumpPids(ws: seq<Worker>, i: nat)
    requires i < |ws|
    ensures PidsOf(Bump(ws, i)) == PidsOf(ws)
  {
    var ws' := Bump(ws, i);
    forall p ensures p in PidsOf(ws') <==> p in PidsOf(ws) {
      if p in PidsOf(ws) {
        var w :| w in ws && w.pid == p;
        var j :| 0 <= j < |ws| && ws[j] == w;
        assert ws'[j] in ws';
      }
      if p in PidsOf(ws') {
        var w :| w in ws' && w.pid == p;
        var j :| 0 <= j < |ws'| && ws'[j] == w;
        assert ws[j] in ws;
      }
    }
  }

  /** What a dispatch costs: one attempt for every process dropped although alive, which
      is then not reachable, and one for the send. It only gives up with attempts left if
      the pool is empty. */
  lemma {:induction false} DispatchSpends(ws: seq<Worker>, live: set<Pid>, routable: set<Pid>, attempts: nat)
    ensures var (ws', target) := Dispatch(ws, live, routable, attempts); var lost := Unreached(ws, ws', live);
            && PidsOf(ws') <= PidsOf(ws) && lost !! routable && |lost| <= attempts
            && (target.SentTo? ==> |lost| + 1 + target.remaining == attempts)
            && (target.NoWorkers? ==> |lost| == attempts || ws' == [])
    decreases |ws|
  {
    hide PickIndex, RemovePid, Dispatch, PidsOf;
    NothingToDo(ws, live, routable, attempts);
    if ws != [] && attempts > 0 {
      DispatchPicks(ws, live, routable, attempts);
      var i := PickIndex(ws);
      var pid := ws[i].pid;
      var vs := RemovePid(ws, pid);
      RetireBumped(ws, i);
      RemovePids(ws, pid);
      if pid !in live {
        DispatchSpends(vs, live, routable, attempts);
        var ws' := Dispatch(ws, live, routable, attempts).0;
        assert Unreached(ws, ws', live) == Unreached(vs, ws', live);
      } else if pid in routable {
        BumpPids(ws, i);
        assert Unreached(ws, Bump(ws, i), live) == {};
      } else {
        DispatchSpends(vs, live, routable, attempts - 1);
        var ws' := Dispatch(ws, live, routable, attempts).0;
        assert pid in PidsOf(ws) by { PidListed(ws, i); }
        assert Unreached(ws, ws', live) == Unreached(vs, ws', live) + {pid};
      }
    }
  }

  /** With nobody alive and reachable nothing is sent. */
  lemma {:induction false} NobodyUsable(ws: seq<Worker>, live: set<Pid>, routable: set<Pid>, attempts: nat)
    requires forall w :: w in ws ==> !Usable(w, live, routable)
    ensures Dispatch(ws, live, routable, attempts).1 == NoWorkers
    decreases |ws|
  {
    hide PickIndex, RemovePid, Dispatch;
    NothingToDo(ws, live, routable, attempts);
    if ws != [] && attempts > 0 {
      DispatchPicks(ws, live, routable, attempts);
      var i := PickIndex(ws);
      RetireBumped(ws, i);
      assert ws[i] in ws;
      NobodyUsable(RemovePid(ws, ws[i].pid), live, routable, attempts);
      NobodyUsable(RemovePid(ws, ws[i].pid), live, routable, attempts - 1);
    }
  }

  /** The outcome of a dispatch: the task goes to the first usable worker if and only if
      there are more attempts than costly workers before it, and exactly those and one
      more attempt are used up. */
  lemma {:induction false} DispatchOutcome(ws: seq<Worker>, live: set<Pid>, routable: set<Pid>, attempts: nat, b: nat)
    requires First(ws, live, routable, b)
    ensures var cost := |Costly(ws, live, routable, b)|;
            Dispatch(ws, live, routable, attempts).1 ==
            if cost < attempts then SentTo(ws[b].pid, attempts - 1 - cost) else NoWorkers
    decreases |ws|
  {
    hide PickIndex, RemovePid, First, Costly, Dispatch;
    NothingToDo(ws, live, routable, attempts);
    FirstInRange(ws, live, routable, b);
    if attempts > 0 {
      DispatchPicks(ws, live, routable, attempts);
      var i := PickIndex(ws);
      if Usable(ws[i], live, routable) {
        FirstIsPicked(ws, live, routable, b);
      } else {
        var pid := ws[i].pid;
        var vs := RemovePid(ws, pid);
        var b' := RemovalKeepsFirst(ws, live, routable, b);
        DispatchOutcome(vs, live, routable, attempts, b');
        DispatchOutcome(vs, live, routable, attempts - 1, b');
      }
    }
  }

  lemma FirstIsPicked(ws: seq<Worker>, live: set<Pid>, routable: set<Pid>, b: nat)
    requires First(ws, live, routable, b) && Usable(ws[PickIndex(ws)], live, routable)
    ensures b == PickIndex(ws) && Costly(ws, live, routable, b) == {}
  {
    hide Load, PickIndex;
    if b != PickIndex(ws) { PickedIsAhead(ws, b); }
  }

  lemma FirstInRange(ws: seq<Worker>, live: set<Pid>, routable: set<Pid>, b: nat)
    requires First(ws, live, routable, b)
    ensures b < |ws|
  {
  }

  lemma FirstExists(ws: seq<Worker>, live: set<Pid>, routable: set<Pid>) returns (b: nat)
    requires exists w :: w in ws && Usable(w, live, routable)
    ensures First(ws, live, routable, b)
  {
    hide Load;
    var n := 0;
    var w :| w in ws && Usable(w, live, routable);
    b :| 0 <= b < |ws| && ws[b] == w;
    while n < |ws|
      invariant n <= |ws| && b < |ws| && Usable(ws[b], live, routable)
      invariant forall j :: 0 <= j < n && j != b && Usable(ws[j], live, routable) ==> Ahead(ws, b, j)
    {
      if n != b && Usable(ws[n], live, routable) && !Ahead(ws, b, n) { b := n; }
      n := n + 1;
    }
  }
}

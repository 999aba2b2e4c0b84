/** The coordinator's scheduler: least-loaded choice among workers, retiring of
    dead workers and failover. Which processes are alive and reachable while a
    message is handled is given by two sets; a worker that fails either check is
    retired, so each is consulted at most once per message. */
module Coordinator {
  import opened Values

  type Pid = nat

  type WorkerId = nat

  const MAX_AVG_RESPONSE_US: nat := 3_600_000_000

  datatype Worker = Worker(id: WorkerId, pid: Pid, inFlight: nat, avg: nat, completed: nat)

  datatype CoordError = PoolFull | WorkerNotFound(id: WorkerId)

  datatype RegisterResult = Registered(id: WorkerId) | Refused(error: CoordError)

  /** What a collector reports about the worker it waited on. */
  datatype TaskComplete =
    | Succeeded(pid: Pid, elapsed: nat)
    | Failed(pid: Pid, remaining: nat)
    | Exhausted(pid: Pid)

  /** Where a dispatch ends: at a worker with some attempts left, or nowhere. */
  datatype Target = SentTo(pid: Pid, remaining: nat) | NoWorkers

  function SaturatingMul(a: nat, b: nat): nat
  {
    Min(a * b, U64_MAX)
  }

  function Load(w: Worker): nat
  {
    SaturatingMul(w.inFlight + 1, Max(w.avg, 1))
  }

  /** `v` is less loaded than `w`, or as loaded with fewer tasks completed. */
  predicate Lighter(v: Worker, w: Worker)
  {
    Load(v) < Load(w) || (Load(v) == Load(w) && v.completed < w.completed)
  }

  /** The first of the least-loaded workers, of those with the fewest tasks completed. */
  function PickIndex(ws: seq<Worker>): (i: nat)
    requires ws != []
    ensures i < |ws|
    ensures forall j :: 0 <= j < |ws| ==>
              Load(ws[i]) < Load(ws[j]) || (Load(ws[i]) == Load(ws[j]) && ws[i].completed <= ws[j].completed)
    ensures forall j :: 0 <= j < i ==>
              Load(ws[i]) < Load(ws[j]) || (Load(ws[i]) == Load(ws[j]) && ws[i].completed < ws[j].completed)
  {
    var n := |ws| - 1;
    if n == 0 then 0 else
      var best := PickIndex(ws[..n]);
      assert forall j :: 0 <= j < n ==> ws[..n][j] == ws[j];
      if Lighter(ws[n], ws[best]) then n else best
  }

  function Bump(ws: seq<Worker>, i: nat): seq<Worker>
    requires i < |ws|
  {
    ws[i := ws[i].(inFlight := ws[i].inFlight + 1)]
  }

  /** The first worker with the given process, if any. */
  function FindPid(ws: seq<Worker>, pid: Pid): (i: nat)
    ensures i <= |ws|
    ensures i < |ws| ==> ws[i].pid == pid
    ensures forall j :: 0 <= j < i ==> ws[j].pid != pid
  {
    if ws == [] || ws[0].pid == pid then 0 else 1 + FindPid(ws[1..], pid)
  }

  function Lower(ws: seq<Worker>, pid: Pid): seq<Worker>
  {
    var i := FindPid(ws, pid);
    if i < |ws| then ws[i := ws[i].(inFlight := SaturatingSub(ws[i].inFlight, 1))] else ws
  }

  function RemovePid(ws: seq<Worker>, pid: Pid): (r: seq<Worker>)
    ensures |r| <= |ws|
    ensures forall w :: w in r <==> w in ws && w.pid != pid
    ensures (exists w :: w in ws && w.pid == pid) ==> |r| < |ws|
  {
    if ws == [] then [] else
      var rest := RemovePid(ws[1..], pid);
      assert ws == [ws[0]] + ws[1..];
      if ws[0].pid == pid then rest else [ws[0]] + rest
  }

  function PidsOf(ws: seq<Worker>): set<Pid>
  {
    set w | w in ws :: w.pid
  }

  lemma RemovePids(ws: seq<Worker>, pid: Pid)
    ensures PidsOf(RemovePid(ws, pid)) == PidsOf(ws) - {pid}
  {
  }

  lemma PidListed(ws: seq<Worker>, i: nat)
    requires i < |ws|
    ensures ws[i].pid in PidsOf(ws)
  {
  }

  /** Give back the speculative claim on a failed worker and take it out. */
  function Retire(ws: seq<Worker>, pid: Pid): seq<Worker>
  {
    RemovePid(Lower(ws, pid), pid)
  }

  function NewAverage(previous: nat, completed: nat, sample: nat): nat
  {
    if completed == 1 then Min(sample, MAX_AVG_RESPONSE_US)
    else Min((3 * sample + 7 * previous) / 10, MAX_AVG_RESPONSE_US)
  }

  function CompletedWorker(w: Worker, elapsed: nat): Worker
  {
    w.(inFlight := SaturatingSub(w.inFlight, 1), completed := w.completed + 1,
       avg := NewAverage(w.avg, w.completed + 1, Max(elapsed, 1)))
  }

  function Complete(ws: seq<Worker>, pid: Pid, elapsed: nat): seq<Worker>
  {
    var i := FindPid(ws, pid);
    if i < |ws| then ws[i := CompletedWorker(ws[i], elapsed)] else ws
  }

  function PickLive(ws: seq<Worker>, live: set<Pid>): (seq<Worker>, Option<Pid>)
    decreases |ws|
  {
    if ws == [] then (ws, None) else
      var i := PickIndex(ws);
      var pid := ws[i].pid;
      if pid in live then (Bump(ws, i), Some(pid)) else
        RetireBumped(ws, i);
        PickLive(Retire(Bump(ws, i), pid), live)
  }

  function Dispatch(ws: seq<Worker>, live: set<Pid>, routable: set<Pid>, attempts: nat): (seq<Worker>, Target)
    decreases attempts
  {
    if attempts == 0 then (ws, NoWorkers) else
      var (ws1, picked) := PickLive(ws, live);
      if picked.None? then (ws1, NoWorkers)
      else if picked.value in routable then (ws1, SentTo(picked.value, attempts - 1))
      else Dispatch(Retire(ws1, picked.value), live, routable, attempts - 1)
  }

  // ---------------------------------------------------------------------------
  // Choosing a worker
  // ---------------------------------------------------------------------------

  /** Retiring a worker that was just claimed is the same as removing it. */
  lemma {:induction false} RetireBumped(ws: seq<Worker>, i: nat)
    requires i < |ws|
    ensures Retire(Bump(ws, i), ws[i].pid) == RemovePid(ws, ws[i].pid)
    ensures |RemovePid(ws, ws[i].pid)| < |ws|
  {
    var pid := ws[i].pid;
    var bumped := Bump(ws, i);
    RemoveIgnores(ws, bumped, pid);
    RemoveIgnores(bumped, Lower(bumped, pid), pid);
    assert ws[i] in ws;
  }

  /** Removing a process does not depend on the counters of its own entries. */
  lemma {:induction false} RemoveIgnores(ws: seq<Worker>, vs: seq<Worker>, pid: Pid)
    requires |ws| == |vs|
    requires forall j :: 0 <= j < |ws| ==> ws[j] == vs[j] || (ws[j].pid == pid == vs[j].pid)
    ensures RemovePid(ws, pid) == RemovePid(vs, pid)
    decreases |ws|
  {
    if ws != [] {
      RemoveIgnores(ws[1..], vs[1..], pid);
    }
  }

  /** `vs` is `ws` without some of its workers, in the same order. */
  ghost predicate Without(ws: seq<Worker>, gone: set<Pid>, vs: seq<Worker>)
    decreases |ws|
  {
    if ws == [] then vs == []
    else if ws[0].pid in gone then Without(ws[1..], gone, vs)
    else vs != [] && vs[0] == ws[0] && Without(ws[1..], gone, vs[1..])
  }

  lemma {:induction false} WithoutNone(ws: seq<Worker>)
    ensures Without(ws, {}, ws)
    decreases |ws|
  {
    if ws != [] { WithoutNone(ws[1..]); }
  }

  lemma {:induction false} WithoutMore(ws: seq<Worker>, gone: set<Pid>, vs: seq<Worker>, pid: Pid)
    requires Without(ws, gone, vs)
    ensures Without(ws, gone + {pid}, RemovePid(vs, pid))
    decreases |ws|
  {
    if ws != [] {
      if ws[0].pid in gone { WithoutMore(ws[1..], gone, vs, pid); }
      else { WithoutMore(ws[1..], gone, vs[1..], pid); }
    }
  }

  lemma {:induction false} WithoutMembers(ws: seq<Worker>, gone: set<Pid>, vs: seq<Worker>)
    requires Without(ws, gone, vs)
    ensures forall w :: w in vs <==> w in ws && w.pid !in gone
    decreases |ws|
  {
    if ws != [] {
      assert ws == [ws[0]] + ws[1..];
      if ws[0].pid in gone { WithoutMembers(ws[1..], gone, vs); }
      else {
        WithoutMembers(ws[1..], gone, vs[1..]);
        assert vs == [vs[0]] + vs[1..];
      }
    }
  }

  lemma WithoutPids(ws: seq<Worker>, gone: set<Pid>, vs: seq<Worker>)
    requires Without(ws, gone, vs)
    ensures PidsOf(vs) <= PidsOf(ws)
  {
    WithoutMembers(ws, gone, vs);
  }

  /** Picking a live worker claims the least-loaded worker once the dead ones that
      were in its way are gone; it finds none exactly when all are dead. */
  lemma {:induction false} PickLiveShape(ws: seq<Worker>, live: set<Pid>) returns (gone: set<Pid>, rest: seq<Worker>)
    ensures gone !! live && gone <= PidsOf(ws) && Without(ws, gone, rest)
    ensures var (ws', picked) := PickLive(ws, live);
            && (picked.None? <==> rest == [])
            && (picked.None? ==> ws' == [])
            && (picked.Some? ==> picked.value in live && rest[PickIndex(rest)].pid == picked.value
                                 && ws' == Bump(rest, PickIndex(rest)))
    decreases |ws|
  {
    hide PickIndex, Lighter, Without, RemovePid, Retire, Bump, PidsOf;
    if ws == [] || ws[PickIndex(ws)].pid in live {
      gone, rest := {}, ws;
      WithoutNone(ws);
    } else {
      var i := PickIndex(ws);
      RetireBumped(ws, i);
      var removed := RemovePid(ws, ws[i].pid);
      RemovePids(ws, ws[i].pid);
      PidListed(ws, i);
      gone, rest := PickLiveShape(removed, live);
      WithoutNone(ws);
      WithoutMore(ws, {}, ws, ws[i].pid);
      assert {} + {ws[i].pid} == {ws[i].pid};
      WithoutTwice(ws, {ws[i].pid}, removed, gone, rest);
      gone := {ws[i].pid} + gone;
    }
  }

  lemma {:induction false} WithoutTwice(ws: seq<Worker>, a: set<Pid>, vs: seq<Worker>, b: set<Pid>, us: seq<Worker>)
    requires Without(ws, a, vs) && Without(vs, b, us)
    ensures Without(ws, a + b, us)
    decreases |ws|
  {
    if ws != [] {
      if ws[0].pid in a { WithoutTwice(ws[1..], a, vs, b, us); }
      else if ws[0].pid in b { WithoutTwice(ws[1..], a, vs[1..], b, us); }
      else { WithoutTwice(ws[1..], a, vs[1..], b, us[1..]); }
    }
  }

  // ---------------------------------------------------------------------------
  // Dispatching
  // ---------------------------------------------------------------------------

  /** A dispatch drops only workers that cannot take the task, and claims the
      least-loaded of the rest; besides the send, each worker dropped although it was
      alive takes an attempt. */
  lemma {:induction false} DispatchShape(ws: seq<Worker>, live: set<Pid>, routable: set<Pid>, attempts: nat)
    returns (gone: set<Pid>, rest: seq<Worker>)
    ensures gone !! live * routable && gone <= PidsOf(ws) && Without(ws, gone, rest)
    ensures var (ws', target) := Dispatch(ws, live, routable, attempts);
            && (target.NoWorkers? ==> ws' == rest)
            && (target.SentTo? ==>
                  && rest != [] && target.pid in live && target.pid in routable
                  && target.remaining + 1 + |gone * live| == attempts
                  && rest[PickIndex(rest)].pid == target.pid && ws' == Bump(rest, PickIndex(rest)))
    decreases attempts
  {
    hide PickIndex, Lighter, Without, PickLive, RemovePid, Retire, Bump, PidsOf;
    if attempts == 0 {
      gone, rest := {}, ws;
      WithoutNone(ws);
    } else {
      gone, rest := PickLiveShape(ws, live);
      var (ws1, picked) := PickLive(ws, live);
      assert gone * live == {};
      if picked.Some? && picked.value !in routable {
        var pid := picked.value;
        RetireBumped(rest, PickIndex(rest));
        var removed := RemovePid(rest, pid);
        RemovePids(rest, pid);
        WithoutPids(ws, gone, rest);
        PidListed(rest, PickIndex(rest));
        WithoutMore(ws, gone, rest, pid);
        var more, rest2 := DispatchShape(removed, live, routable, attempts - 1);
        WithoutTwice(ws, gone + {pid}, removed, more, rest2);
        assert (gone + {pid} + more) * live == {pid} + more * live;
        gone, rest := gone + {pid} + more, rest2;
      }
    }
  }

  /** With as many attempts as workers, a task is refused if and only if no worker
      is both alive and reachable. */
  lemma {:induction false} RefusedIff(ws: seq<Worker>, live: set<Pid>, routable: set<Pid>, attempts: nat)
    requires attempts >= |ws|
    ensures Dispatch(ws, live, routable, attempts).1.NoWorkers? <==>
              forall w :: w in ws ==> w.pid !in live || w.pid !in routable
    decreases attempts
  {
    hide PickIndex, Lighter, Without, PickLive, RemovePid, Retire, Bump;
    if attempts > 0 {
      var gone, rest := PickLiveShape(ws, live);
      WithoutMembers(ws, gone, rest);
      var (ws1, picked) := PickLive(ws, live);
      if picked.Some? {
        var pid := picked.value;
        assert rest[PickIndex(rest)] in rest;
        if pid !in routable {
          RetireBumped(rest, PickIndex(rest));
          WithoutShorter(ws, gone, rest);
          RefusedIff(RemovePid(rest, pid), live, routable, attempts - 1);
        }
      }
    }
  }

  lemma {:induction false} WithoutShorter(ws: seq<Worker>, gone: set<Pid>, vs: seq<Worker>)
    requires Without(ws, gone, vs)
    ensures |vs| <= |ws|
    decreases |ws|
  {
    if ws != [] {
      if ws[0].pid in gone { WithoutShorter(ws[1..], gone, vs); } else { WithoutShorter(ws[1..], gone, vs[1..]); }
    }
  }

  // ---------------------------------------------------------------------------
  // Response times
  // ---------------------------------------------------------------------------

  /** A worker that has completed a task has a sane average. */
  predicate SaneAverage(w: Worker)
  {
    if w.completed == 0 then w.avg == 0 else 1 <= w.avg <= MAX_AVG_RESPONSE_US
  }

  /** The first sample is the average; after that the average moves towards the sample without passing it, and stays between
      one microsecond and the ceiling whatever is measured. */
  lemma AverageIsSane(w: Worker, elapsed: nat)
    requires SaneAverage(w)
    ensures var w' := CompletedWorker(w, elapsed); var sample := Max(elapsed, 1);
            && SaneAverage(w') && w'.completed == w.completed + 1 && w'.id == w.id && w'.pid == w.pid
            && (w.completed == 0 ==> w'.avg == Min(sample, MAX_AVG_RESPONSE_US))
            && (w.completed > 0 && sample <= MAX_AVG_RESPONSE_US ==> Min(w.avg, sample) <= w'.avg <= Max(w.avg, sample))
  {
    Weighted(w.avg, Max(elapsed, 1));
  }

  function Gap(a: nat, b: nat): nat
  {
    if a >= b then a - b else b - a
  }

  /** After the first task each reply closes three tenths of the gap between the average
      and the sample, up to rounding. */
  lemma AverageClosesTheGap(w: Worker, elapsed: nat)
    requires SaneAverage(w) && w.completed > 0 && 1 <= elapsed <= MAX_AVG_RESPONSE_US
    ensures var w' := CompletedWorker(w, elapsed);
            7 * Gap(w.avg, elapsed) - 9 <= 10 * Gap(w'.avg, elapsed) <= 7 * Gap(w.avg, elapsed) + 9
  {
    Weighted(w.avg, elapsed);
  }

  lemma Weighted(a: nat, b: nat)
    ensures Min(a, b) <= (3 * b + 7 * a) / 10 <= Max(a, b)
  {
  }

  /** The load score grows with the tasks in flight and the response time until it
      saturates, and is exact for any in-flight count below 2^32. */
  lemma LoadIsExact(w: Worker)
    ensures Load(w) == Min((w.inFlight + 1) * Max(w.avg, 1), U64_MAX)
    ensures SaneAverage(w) && w.inFlight < 0x1_0000_0000 ==> Load(w) == (w.inFlight + 1) * Max(w.avg, 1)
  {
    if SaneAverage(w) && w.inFlight < 0x1_0000_0000 {
      Products(w.inFlight + 1, Max(w.avg, 1), 0x1_0000_0000, MAX_AVG_RESPONSE_US);
    }
  }

  lemma Products(a: nat, b: nat, c: nat, d: nat)
    requires a <= c && b <= d
    ensures a * b <= c * d
  {
    assert a * b <= a * d;
    assert a * d <= c * d;
  }

  // ---------------------------------------------------------------------------
  // The scheduler
  // ---------------------------------------------------------------------------

  function SwapRemove(ws: seq<Worker>, i: nat): seq<Worker>
    requires i < |ws|
  {
    ws[i := ws[|ws| - 1]][..|ws| - 1]
  }

  lemma {:induction false} SwapRemoveMembers(ws: seq<Worker>, i: nat)
    requires i < |ws|
    ensures multiset(SwapRemove(ws, i)) == multiset(ws) - multiset{ws[i]}
  {
    var n := |ws| - 1;
    var moved := ws[i := ws[n]];
    assert moved == moved[..n] + [moved[n]];
    assert ws == ws[..n] + [ws[n]];
    if i < n {
      assert moved[..n] == ws[..n][i := ws[n]];
    }
  }

  class CoordState {
    var workers: seq<Worker>
    var nextId: nat
    const maxWorkers: nat

    constructor (maxWorkers: nat)
      ensures workers == [] && nextId == 0 && this.maxWorkers == maxWorkers
    {
      workers, nextId, this.maxWorkers := [], 0, maxWorkers;
    }

    method Register(pid: Pid) returns (r: RegisterResult)
      modifies this
      ensures if maxWorkers > 0 && |old(workers)| >= maxWorkers
              then r == Refused(PoolFull) && workers == old(workers) && nextId == old(nextId)
              else r == Registered(nextId) && nextId == old(nextId) + 1
                   && workers == old(workers) + [Worker(nextId, pid, 0, 0, 0)]
    {
      if maxWorkers > 0 && |workers| >= maxWorkers {
        return Refused(PoolFull);
      }
      nextId := nextId + 1;
      workers := workers + [Worker(nextId, pid, 0, 0, 0)];
      return Registered(nextId);
    }

    method Unregister(id: WorkerId) returns (r: RegisterResult)
      modifies this
      ensures nextId == old(nextId)
      ensures r.Registered? ==>
                exists i :: 0 <= i < |old(workers)| && old(workers)[i].id == id
                            && (forall j :: 0 <= j < i ==> old(workers)[j].id != id)
                            && workers == SwapRemove(old(workers), i)
      ensures r.Refused? ==>
                r.error == WorkerNotFound(id) && workers == old(workers)
                && forall i :: 0 <= i < |workers| ==> workers[i].id != id
    {
      for i := 0 to |workers|
        invariant workers == old(workers) && nextId == old(nextId)
        invariant forall j :: 0 <= j < i ==> workers[j].id != id
      {
        if workers[i].id == id {
          workers := workers[i := workers[|workers| - 1]][..|workers| - 1];
          assert workers == SwapRemove(old(workers), i);
          return Registered(id);
        }
      }
      return Refused(WorkerNotFound(id));
    }

    method PickWorker() returns (pid: Option<Pid>)
      modifies this`workers
      ensures old(workers) == [] ==> pid == None && workers == []
      ensures old(workers) != [] ==>
                var i := PickIndex(old(workers));
                pid == Some(old(workers)[i].pid) && workers == Bump(old(workers), i)
    {
      if workers == [] {
        return None;
      }
      var best := 0;
      for i := 1 to |workers|
        invariant best < i
        invariant forall j :: 0 <= j < i ==> !Lighter(workers[j], workers[best])
        invariant forall j :: 0 <= j < best ==> Lighter(workers[best], workers[j])
        invariant workers == old(workers)
      {
        if Lighter(workers[i], workers[best]) {
          best := i;
        }
      }
      FirstLightest(workers, best, PickIndex(workers));
      pid := Some(workers[best].pid);
      workers := workers[best := workers[best].(inFlight := workers[best].inFlight + 1)];
    }

    method LowerInFlight(pid: Pid)
      modifies this`workers
      ensures workers == Lower(old(workers), pid)
    {
      var i := FindPid(workers, pid);
      if i < |workers| {
        workers := workers[i := workers[i].(inFlight := SaturatingSub(workers[i].inFlight, 1))];
      }
    }

    method RetireWorker(pid: Pid)
      modifies this`workers
      ensures workers == Retire(old(workers), pid)
    {
      LowerInFlight(pid);
      workers := RemovePid(workers, pid);
    }

    method PickLiveWorker(live: set<Pid>) returns (picked: Option<Pid>)
      modifies this`workers
      ensures (workers, picked) == PickLive(old(workers), live)
    {
      hide Retire, Bump, RemovePid;
      while true
        invariant PickLive(workers, live) == PickLive(old(workers), live)
        decreases |workers|
      {
        ghost var before := workers;
        picked := PickWorker();
        if picked == None || picked.value in live {
          return;
        }
        RetireBumped(before, PickIndex(before));
        RetireWorker(picked.value);
      }
    }

    method CompleteTask(pid: Pid, elapsed: nat)
      modifies this`workers
      ensures workers == Complete(old(workers), pid, elapsed)
    {
      var sample := Max(elapsed, 1);
      var i := FindPid(workers, pid);
      if i < |workers| {
        var w := workers[i];
        w := w.(inFlight := SaturatingSub(w.inFlight, 1), completed := w.completed + 1);
        if w.completed == 1 {
          w := w.(avg := Min(sample, MAX_AVG_RESPONSE_US));
        } else {
          w := w.(avg := Min((3 * sample + 7 * w.avg) / 10, MAX_AVG_RESPONSE_US));
        }
        workers := workers[i := w];
      }
    }

    method DispatchTask(live: set<Pid>, routable: set<Pid>, attempts: nat) returns (target: Target)
      modifies this`workers
      ensures (workers, target) == Dispatch(old(workers), live, routable, attempts)
      decreases attempts
    {
      hide PickLive, Retire;
      if attempts == 0 {
        return NoWorkers;
      }
      var picked := PickLiveWorker(live);
      if picked.None? {
        return NoWorkers;
      }
      if picked.value !in routable {
        RetireWorker(picked.value);
        target := DispatchTask(live, routable, attempts - 1);
        return;
      }
      return SentTo(picked.value, attempts - 1);
    }

    /** A failed task is dispatched again while attempts remain. */
    method HandleComplete(tc: TaskComplete, live: set<Pid>, routable: set<Pid>) returns (target: Option<Target>)
      modifies this`workers
      ensures target.Some? <==> tc.Failed?
      ensures match tc
              case Succeeded(pid, elapsed) => workers == Complete(old(workers), pid, elapsed)
              case Exhausted(pid) => workers == Retire(old(workers), pid)
              case Failed(pid, remaining) =>
                (workers, target.value) == Dispatch(Retire(old(workers), pid), live, routable, remaining)
    {
      match tc {
        case Succeeded(pid, elapsed) =>
          CompleteTask(pid, elapsed);
          target := None;
        case Exhausted(pid) =>
          RetireWorker(pid);
          target := None;
        case Failed(pid, remaining) =>
          RetireWorker(pid);
          var t := DispatchTask(live, routable, remaining);
          target := Some(t);
      }
    }
  }

  /** There is only one first least-loaded worker. */
  lemma FirstLightest(ws: seq<Worker>, a: nat, b: nat)
    requires a < |ws| && b < |ws|
    requires forall j :: 0 <= j < |ws| ==> !Lighter(ws[j], ws[a])
    requires forall j :: 0 <= j < a ==> Lighter(ws[a], ws[j])
    requires forall j :: 0 <= j < |ws| ==> !Lighter(ws[j], ws[b])
    requires forall j :: 0 <= j < b ==> Lighter(ws[b], ws[j])
    ensures a == b
  {
    hide Lighter;
    assert !Lighter(ws[b], ws[a]) && !Lighter(ws[a], ws[b]);
  }
}

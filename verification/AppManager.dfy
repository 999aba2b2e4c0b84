/** Starting and stopping applications in dependency order, in sequential runs:
    no two calls overlap, so a `Starting` reservation lives only inside a call. */
module AppManager {
  import opened TopoSort

  /** What the manager knows between calls: registrations, the running
      applications in start order, and the dependencies each had when it started. */
  datatype Apps = Apps(registered: Graph, order: seq<Name>, deps: map<Name, seq<Name>>)

  datatype RunState = Starting | Running

  /** `d` is the first of `deps` that is not running. */
  ghost predicate FirstMissing(deps: seq<Name>, order: seq<Name>, d: Name)
  {
    exists i :: 0 <= i < |deps| && deps[i] == d && d !in order && forall k :: 0 <= k < i ==> deps[k] in order
  }

  datatype Outcome = Done | Failed(error: AppError)

  datatype EnsureOutcome = Started(names: seq<Name>) | NotStarted(error: AppError)

  /** The list without `name`. */
  function Retain(s: seq<Name>, name: Name): (r: seq<Name>)
    ensures forall x :: x in r <==> x in s && x != name
  {
    if s == [] then [] else
      var init, x := Retain(s[..|s| - 1], name), s[|s| - 1];
      assert s == s[..|s| - 1] + [x];
      if x == name then init else init + [x]
  }

  function Reverse(s: seq<Name>): seq<Name>
  {
    seq(|s|, i requires 0 <= i < |s| => s[|s| - 1 - i])
  }

  function StartApp(m: Apps, name: Name): Apps
    requires name in m.registered
  {
    m.(order := m.order + [name], deps := m.deps[name := m.registered[name]])
  }

  function StopApp(m: Apps, name: Name): Apps
  {
    m.(order := Retain(m.order, name), deps := m.deps - {name})
  }

  function StartAll(m: Apps, names: seq<Name>): Apps
    requires forall x :: x in names ==> x in m.registered
    ensures StartAll(m, names).registered == m.registered
  {
    if names == [] then m else
      assert names[|names| - 1] in names;
      StartApp(StartAll(m, names[..|names| - 1]), names[|names| - 1])
  }

  ghost predicate Consistent(m: Apps)
  {
    NoRepeats(m.order) && forall x :: x in m.deps <==> x in m.order
  }

  /** Every running application's dependencies started before it and still run. */
  ghost predicate InDependencyOrder(m: Apps)
  {
    forall i :: 0 <= i < |m.order| ==>
      m.order[i] in m.deps && forall d :: d in m.deps[m.order[i]] ==> d in m.order[..i]
  }

  /** What stopping in reverse order needs: of two running applications, one of
      which depends on the other, the dependency started first. */
  ghost predicate UsersLater(m: Apps)
  {
    forall i, j :: 0 <= i < |m.order| && 0 <= j < |m.order| && m.order[i] in m.deps && m.order[j] in m.deps[m.order[i]] ==>
      j < i
  }

  /** Stopping in reverse start order stops every running application before each of
      its dependencies that is running too. */
  ghost predicate StopsUsersFirst(m: Apps)
  {
    forall user, dep :: user in m.order && dep in m.order && user in m.deps && dep in m.deps[user] ==>
      Precedes(Reverse(m.order), user, dep)
  }

  ghost predicate Precedes(s: seq<Name>, a: Name, b: Name)
  {
    exists i, j :: 0 <= i < j < |s| && s[i] == a && s[j] == b
  }

  // ---------------------------------------------------------------------------
  // Order of starting and stopping
  // ---------------------------------------------------------------------------

  lemma {:induction false} RetainAbsent(s: seq<Name>, name: Name)
    requires name !in s
    ensures Retain(s, name) == s
    decreases |s|
  {
    if s != [] {
      assert s[|s| - 1] in s;
      RetainAbsent(s[..|s| - 1], name);
    }
  }

  /** Stopping what was started last undoes the start. */
  lemma StopUndoesStart(m: Apps, name: Name)
    requires Consistent(m) && name in m.registered && name !in m.order
    ensures StopApp(StartApp(m, name), name) == m
  {
    assert (m.order + [name])[..|m.order|] == m.order;
    RetainAbsent(m.order, name);
    assert m.deps[name := m.registered[name]] - {name} == m.deps;
  }

  lemma StartKeepsConsistent(m: Apps, name: Name)
    requires Consistent(m) && name in m.registered && name !in m.order
    ensures Consistent(StartApp(m, name))
  {
  }

  lemma StartKeepsOrder(m: Apps, name: Name)
    requires Consistent(m) && InDependencyOrder(m) && name in m.registered && name !in m.order
    requires forall d :: d in m.registered[name] ==> d in m.order
    ensures InDependencyOrder(StartApp(m, name))
  {
    var m' := StartApp(m, name);
    forall i | 0 <= i < |m'.order|
      ensures m'.order[i] in m'.deps && forall d :: d in m'.deps[m'.order[i]] ==> d in m'.order[..i]
    {
      if i < |m.order| {
        assert m'.order[i] == m.order[i] && m'.order[..i] == m.order[..i];
        assert m.order[i] in m.order;
      } else {
        assert m'.order[..i] == m.order;
      }
    }
  }

  /** The positions that survive a stop keep their relative order. */
  lemma {:induction false} RetainPrefix(s: seq<Name>, name: Name, i: nat) returns (k: nat)
    requires i < |Retain(s, name)|
    ensures k < |s| && s[k] == Retain(s, name)[i] && Retain(s, name)[..i] == Retain(s[..k], name)
    decreases |s|
  {
    var init, x := s[..|s| - 1], s[|s| - 1];
    var r, ri := Retain(s, name), Retain(init, name);
    if i < |ri| {
      k := RetainPrefix(init, name, i);
      assert init[..k] == s[..k];
      assert r[..i] == ri[..i];
    } else {
      k := |s| - 1;
      assert r[..i] == ri;
    }
  }

  lemma {:induction false} RetainNoRepeats(s: seq<Name>, name: Name)
    requires NoRepeats(s)
    ensures NoRepeats(Retain(s, name))
    decreases |s|
  {
    if s != [] {
      RetainNoRepeats(s[..|s| - 1], name);
      assert s[|s| - 1] !in s[..|s| - 1];
    }
  }

  lemma StopKeepsConsistent(m: Apps, name: Name)
    requires Consistent(m)
    ensures Consistent(StopApp(m, name))
  {
    RetainNoRepeats(m.order, name);
  }

  /** Some other running application was started on top of `name`. */
  ghost predicate NeededBy(m: Apps, name: Name, user: Name)
  {
    user in m.order && user != name && user in m.deps && name in m.deps[user]
  }

  /** Stopping one application keeps the rest in dependency order if and only if
      no other running application depends on it. */
  lemma StopKeepsOrderIff(m: Apps, name: Name)
    requires Consistent(m) && InDependencyOrder(m)
    ensures InDependencyOrder(StopApp(m, name)) <==> !exists user :: NeededBy(m, name, user)
  {
    var m' := StopApp(m, name);
    if user :| NeededBy(m, name, user) {
      assert user in m'.order;
      var i :| 0 <= i < |m'.order| && m'.order[i] == user;
      assert m'.deps[user] == m.deps[user];
      assert name !in m'.order[..i];
    } else {
      forall i | 0 <= i < |m'.order|
        ensures m'.order[i] in m'.deps && forall d :: d in m'.deps[m'.order[i]] ==> d in m'.order[..i]
      {
        var k := RetainPrefix(m.order, name, i);
        var user := m'.order[i];
        assert user in m'.order;
        forall d | d in m'.deps[user] ensures d in m'.order[..i] {
          assert !NeededBy(m, name, user);
          assert d in m.order[..k];
        }
      }
    }
  }

  /** The positions that survive a stop stay in order. */
  lemma RetainMonotone(s: seq<Name>, name: Name, i: nat, j: nat) returns (k: nat, l: nat)
    requires NoRepeats(s) && i < |Retain(s, name)| && j < |Retain(s, name)|
    ensures k < |s| && l < |s| && s[k] == Retain(s, name)[i] && s[l] == Retain(s, name)[j]
    ensures l < k ==> j < i
  {
    var r := Retain(s, name);
    k := RetainPrefix(s, name, i);
    l := RetainPrefix(s, name, j);
    if i < j {
      assert r[i] == r[..j][i];
      assert r[i] in s[..l];
    }
  }

  /** A stop never breaks the order in which users are stopped. */
  lemma StopKeepsUsersLater(m: Apps, name: Name)
    requires Consistent(m) && UsersLater(m)
    ensures UsersLater(StopApp(m, name))
  {
    var m' := StopApp(m, name);
    forall i, j | 0 <= i < |m'.order| && 0 <= j < |m'.order| && m'.order[i] in m'.deps && m'.order[j] in m'.deps[m'.order[i]]
      ensures j < i
    {
      var k, l := RetainMonotone(m.order, name, i, j);
      assert m.order[l] in m.deps[m.order[k]];
    }
  }

  /** A start keeps users later than their dependencies if and only if nothing that is
      running already depends on what is started. */
  lemma StartKeepsUsersLaterIff(m: Apps, name: Name)
    requires Consistent(m) && name in m.registered && name !in m.order && name !in m.registered[name]
    ensures UsersLater(StartApp(m, name)) <==> UsersLater(m) && !exists user :: NeededBy(m, name, user)
  {
    var m' := StartApp(m, name);
    var n := |m.order|;
    assert forall i :: 0 <= i < n ==> m'.order[i] == m.order[i];
    if user :| NeededBy(m, name, user) {
      var i :| 0 <= i < n && m.order[i] == user;
      assert m'.order[n] in m'.deps[m'.order[i]];
    } else if UsersLater(m') {
      forall i, j | 0 <= i < n && 0 <= j < n && m.order[i] in m.deps && m.order[j] in m.deps[m.order[i]] ensures j < i {
        assert m.order[i] in m.order;
        assert m'.order[j] in m'.deps[m'.order[i]];
      }
    } else if UsersLater(m) {
      forall i, j | 0 <= i <= n && 0 <= j <= n && m'.order[i] in m'.deps && m'.order[j] in m'.deps[m'.order[i]]
        ensures j < i
      {
        if i < n && j == n { assert m.order[i] in m.order; assert NeededBy(m, name, m.order[i]); }
        if i < n && j < n { assert m.order[i] in m.order; }
      }
    }
  }

  /** Reverse start order stops users first exactly when users started later. */
  lemma StopsUsersFirstIff(m: Apps)
    requires Consistent(m)
    ensures StopsUsersFirst(m) <==> UsersLater(m)
  {
    hide Reverse, Precedes;
    var n, r := |m.order|, Reverse(m.order);
    if StopsUsersFirst(m) {
      forall i, j | 0 <= i < n && 0 <= j < n && m.order[i] in m.deps && m.order[j] in m.deps[m.order[i]] ensures j < i {
        assert Precedes(r, m.order[i], m.order[j]);
        ReversedPrecedesIff(m.order, i, j);
      }
    }
    if UsersLater(m) {
      forall user, dep | user in m.order && dep in m.order && user in m.deps && dep in m.deps[user]
        ensures Precedes(r, user, dep)
      {
        var i :| 0 <= i < n && m.order[i] == user;
        var j :| 0 <= j < n && m.order[j] == dep;
        ReversedPrecedesIff(m.order, i, j);
      }
    }
  }

  lemma ReversedPrecedesIff(s: seq<Name>, i: nat, j: nat)
    requires NoRepeats(s) && i < |s| && j < |s|
    ensures Precedes(Reverse(s), s[i], s[j]) <==> j < i
  {
    var n, r := |s|, Reverse(s);
    forall k | 0 <= k < n ensures |r| == n && r[n - 1 - k] == s[k] { ReverseAt(s, k); }
    if a, b :| 0 <= a < b < |r| && r[a] == s[i] && r[b] == s[j] {
      assert r[a] == s[n - 1 - a] && r[b] == s[n - 1 - b];
    }
  }

  /** In dependency order, dependencies all run and started before their users. */
  lemma OrderedUsersLater(m: Apps)
    requires Consistent(m) && InDependencyOrder(m)
    ensures UsersLater(m)
    ensures forall name, user :: name !in m.order ==> !NeededBy(m, name, user)
  {
    forall i, j | 0 <= i < |m.order| && 0 <= j < |m.order| && m.order[i] in m.deps && m.order[j] in m.deps[m.order[i]]
      ensures j < i
    {
      var before := m.order[..i];
      assert m.order[j] in before;
      var k :| 0 <= k < i && before[k] == m.order[j];
    }
    forall name, user | NeededBy(m, name, user) ensures name in m.order {
      var i :| 0 <= i < |m.order| && m.order[i] == user;
      assert name in m.order[..i];
    }
  }

  lemma ReverseAt(s: seq<Name>, k: nat)
    requires k < |s|
    ensures |Reverse(s)| == |s| && Reverse(s)[|s| - 1 - k] == s[k]
  {
  }

  // ---------------------------------------------------------------------------
  // Runs
  // ---------------------------------------------------------------------------

  datatype Op =
    | DoRegister(name: Name, deps: seq<Name>)
    | DoStart(name: Name)
    | DoEnsure(name: Name)
    | DoStop(name: Name)
    | DoStopAll

  /** What each call may do to the manager. */
  ghost predicate Next(m: Apps, op: Op, m': Apps)
  {
    match op
    case DoRegister(name, deps) => m' == m.(registered := m.registered[name := deps])
    case DoStart(name) =>
      m' == m ||
      (name in m.registered && name !in m.order && (forall d :: d in m.registered[name] ==> d in m.order)
       && m' == StartApp(m, name))
    case DoEnsure(name) => m' == m || exists order :: Ensured(m, name, order, m')
    case DoStop(name) => m' == if name in m.order then StopApp(m, name) else m
    case DoStopAll => m' == m.(order := [], deps := map[])
  }

  /** `order` lists what `name` needs, dependencies first, and exactly the ones
      that were not running have been started in that order. */
  ghost predicate Ensured(m: Apps, name: Name, order: seq<Name>, m': Apps)
  {
    && IsStartOrder(m.registered, name, order)
    && (forall x :: x in order ==> x in m.registered)
    && m' == StartAll(m, Missing(m, order))
  }

  function Missing(m: Apps, order: seq<Name>): (r: seq<Name>)
    ensures forall x :: x in r <==> x in order && x !in m.order
  {
    if order == [] then [] else
      var init, x := Missing(m, order[..|order| - 1]), order[|order| - 1];
      assert order == order[..|order| - 1] + [x];
      if x in m.order then init else init + [x]
  }

  lemma {:induction false} StartAllOrder(m: Apps, names: seq<Name>)
    requires forall x :: x in names ==> x in m.registered
    ensures StartAll(m, names).order == m.order + names
    decreases |names|
  {
    if names != [] {
      StartAllOrder(m, names[..|names| - 1]);
      assert names == names[..|names| - 1] + [names[|names| - 1]];
    } else {
      assert m.order + names == m.order;
    }
  }

  lemma {:induction false} EnsuredKeepsOrder(m: Apps, order: seq<Name>)
    requires Consistent(m) && InDependencyOrder(m) && DepsFirst(m.registered, order) && NoRepeats(order)
    ensures forall x :: x in Missing(m, order) ==> x in m.registered
    ensures var m' := StartAll(m, Missing(m, order));
            && Consistent(m') && InDependencyOrder(m')
            && forall x :: x in m'.order <==> x in m.order || x in order
    decreases |order|
  {
    if order != [] {
      var init, x := order[..|order| - 1], order[|order| - 1];
      assert order == init + [x];
      forall i | 0 <= i < |init| ensures init[..i] == order[..i] {}
      assert DepsFirst(m.registered, init);
      EnsuredKeepsOrder(m, init);
      var m1 := StartAll(m, Missing(m, init));
      assert order[..|order| - 1] == init;
      if x !in m.order {
        assert Missing(m, order) == Missing(m, init) + [x];
        assert Missing(m, order)[..|Missing(m, order)| - 1] == Missing(m, init);
        assert x in m.registered;
        assert x !in init;
        StartKeepsConsistent(m1, x);
        StartKeepsOrder(m1, x);
      }
    } else {
      assert Missing(m, order) == [];
    }
  }

  lemma {:induction false} StartAllDeps(m: Apps, names: seq<Name>, x: Name)
    requires forall y :: y in names ==> y in m.registered
    ensures var m' := StartAll(m, names);
            && (x in m'.deps <==> x in m.deps || x in names)
            && (x in m'.deps ==> m'.deps[x] == if x in names then m.registered[x] else m.deps[x])
    decreases |names|
  {
    if names != [] {
      StartAllDeps(m, names[..|names| - 1], x);
      assert names == names[..|names| - 1] + [names[|names| - 1]];
    }
  }

  /** Something in `names` is needed by an application that runs already. */
  ghost predicate AnyNeeded(m: Apps, names: seq<Name>)
  {
    exists x, user :: x in names && NeededBy(m, x, user)
  }

  /** What an ensure starts last is needed afterwards by who needed it before. */
  lemma NeededInEnsure(m: Apps, init: seq<Name>, x: Name, user: Name)
    requires DepsFirst(m.registered, init) && x !in init && x !in m.order
    requires forall y :: y in Missing(m, init) ==> y in m.registered
    requires Consistent(m)
    ensures NeededBy(StartAll(m, Missing(m, init)), x, user) <==> NeededBy(m, x, user)
  {
    var names := Missing(m, init);
    StartAllOrder(m, names);
    StartAllDeps(m, names, user);
    if user in names {
      var i :| 0 <= i < |init| && init[i] == user;
      assert forall d :: d in m.registered[user] ==> d in init[..i];
    }
  }

  /** Starting what is missing keeps users later than their dependencies if and only if
      nothing that runs already depends on any of it. */
  lemma {:induction false} EnsureKeepsUsersLaterIff(m: Apps, order: seq<Name>)
    requires Consistent(m) && UsersLater(m) && DepsFirst(m.registered, order) && NoRepeats(order)
    requires forall x :: x in order ==> x in m.registered
    ensures UsersLater(StartAll(m, Missing(m, order))) <==> !AnyNeeded(m, Missing(m, order))
    decreases |order|
  {
    if order != [] {
      var init, x := order[..|order| - 1], order[|order| - 1];
      assert order == init + [x];
      PrefixDepsFirst(m.registered, order);
      hide UsersLater, NeededBy, Consistent, DepsFirst;
      EnsureKeepsUsersLaterIff(m, init);
      if x !in m.order {
        var names, all := Missing(m, init), Missing(m, order);
        assert all == names + [x] && all[..|all| - 1] == names;
        var m1 := StartAll(m, names);
        EnsuredKeepsConsistent(m, init);
        LastIsNew(m.registered, order);
        StartKeepsUsersLaterIff(m1, x);
        forall user ensures NeededBy(m1, x, user) <==> NeededBy(m, x, user) { NeededInEnsure(m, init, x, user); }
        assert AnyNeeded(m, all) <==> AnyNeeded(m, names) || exists user :: NeededBy(m, x, user);
      }
    }
  }

  lemma PrefixDepsFirst(g: Graph, order: seq<Name>)
    requires DepsFirst(g, order) && order != []
    ensures DepsFirst(g, order[..|order| - 1])
  {
    var init := order[..|order| - 1];
    forall i | 0 <= i < |init| ensures init[..i] == order[..i] && init[i] == order[i] {}
  }

  lemma LastIsNew(g: Graph, order: seq<Name>)
    requires DepsFirst(g, order) && NoRepeats(order) && order != []
    ensures var x := order[|order| - 1]; x in g && x !in order[..|order| - 1] && x !in g[x]
  {
  }

  /** Some application that the step starts is needed by one that runs already. */
  ghost predicate Undercuts(m: Apps, m': Apps)
  {
    exists x, user :: x in m'.order && x !in m.order && NeededBy(m, x, user)
  }

  /** The exact point where reverse start order stops being right: a call keeps users
      later than their dependencies if and only if it starts nothing that an
      application running already depends on. A stop always does. */
  lemma NextKeepsUsersLaterIff(m: Apps, op: Op, m': Apps)
    requires Consistent(m) && UsersLater(m) && Next(m, op, m')
    ensures UsersLater(m') <==> !Undercuts(m, m')
  {
    if m' == m { return; }
    match op
    case DoRegister(name, deps) =>
    case DoStart(name) =>
      hide UsersLater, NeededBy;
      assert forall x :: x in m'.order && x !in m.order <==> x == name;
      StartKeepsUsersLaterIff(m, name);
    case DoEnsure(name) =>
      var order :| Ensured(m, name, order, m');
      EnsuredKeepsConsistent(m, order);
      EnsureKeepsUsersLaterIff(m, order);
      StartAllOrder(m, Missing(m, order));
    case DoStop(name) =>
      StopKeepsUsersLater(m, name);
    case DoStopAll =>
  }

  /** A run of the manager: successive states and the calls between them. */
  ghost predicate IsRun(ms: seq<Apps>, ops: seq<Op>)
  {
    && |ms| == |ops| + 1
    && ms[0] == Apps(map[], [], map[])
    && forall i :: 0 <= i < |ops| ==> Next(ms[i], ops[i], ms[i + 1])
  }

  lemma NextKeeps(m: Apps, op: Op, m': Apps)
    requires Consistent(m) && Next(m, op, m')
    ensures Consistent(m')
    ensures InDependencyOrder(m) && !op.DoStop? ==> InDependencyOrder(m')
    ensures InDependencyOrder(m) && op.DoStop? ==>
              (InDependencyOrder(m') <==> !(op.name in m.order && exists user :: NeededBy(m, op.name, user)))
  {
    match op
    case DoRegister(name, deps) =>
    case DoStart(name) =>
      if m' != m {
        StartKeepsConsistent(m, name);
        if InDependencyOrder(m) { StartKeepsOrder(m, name); }
      }
    case DoEnsure(name) =>
      if m' != m {
        var order :| Ensured(m, name, order, m');
        EnsuredKeepsConsistent(m, order);
        if InDependencyOrder(m) { EnsuredKeepsOrder(m, order); }
      }
    case DoStop(name) =>
      StopKeepsConsistent(m, name);
      if InDependencyOrder(m) && name in m.order { StopKeepsOrderIff(m, name); }
    case DoStopAll =>
  }

  lemma {:induction false} EnsuredKeepsConsistent(m: Apps, order: seq<Name>)
    requires Consistent(m) && NoRepeats(order) && forall x :: x in order ==> x in m.registered
    ensures Consistent(StartAll(m, Missing(m, order)))
    ensures forall x :: x in StartAll(m, Missing(m, order)).order <==> x in m.order || x in order
    decreases |order|
  {
    if order != [] {
      var init, x := order[..|order| - 1], order[|order| - 1];
      assert order == init + [x];
      EnsuredKeepsConsistent(m, init);
      if x !in m.order {
        assert Missing(m, order)[..|Missing(m, order)| - 1] == Missing(m, init);
        assert x !in init;
        StartKeepsConsistent(StartAll(m, Missing(m, init)), x);
      }
    }
  }

  /** In every run in which no call started an application that one running already
      depended on, stopping all applications stops users before their dependencies. */
  lemma {:induction false} StopAllStopsUsersFirst(ms: seq<Apps>, ops: seq<Op>)
    requires IsRun(ms, ops) && forall i :: 0 <= i < |ops| ==> !Undercuts(ms[i], ms[i + 1])
    ensures var m := ms[|ops|]; Consistent(m) && UsersLater(m) && StopsUsersFirst(m)
    decreases |ops|
  {
    hide StopsUsersFirst;
    if ops != [] {
      StopAllStopsUsersFirst(ms[..|ms| - 1], ops[..|ops| - 1]);
      hide Consistent, UsersLater, Next, Undercuts;
      var m, op, m' := ms[|ops| - 1], ops[|ops| - 1], ms[|ops|];
      assert Next(m, op, m') && !Undercuts(m, m');
      NextKeeps(m, op, m');
      NextKeepsUsersLaterIff(m, op, m');
    }
    StopsUsersFirstIff(ms[|ops|]);
  }

  /** Without individual stops no call ever does that: every reachable state is in
      dependency order, so all applications stop before all they depend on. */
  lemma {:induction false} WithoutStopsUsersFirst(ms: seq<Apps>, ops: seq<Op>)
    requires IsRun(ms, ops) && forall i :: 0 <= i < |ops| ==> !ops[i].DoStop?
    ensures var m := ms[|ops|];
            && Consistent(m) && InDependencyOrder(m) && StopsUsersFirst(m)
            && forall user, dep :: user in m.order && dep in m.deps[user] ==> dep in m.order
    decreases |ops|
  {
    hide StopsUsersFirst;
    if ops != [] {
      WithoutStopsUsersFirst(ms[..|ms| - 1], ops[..|ops| - 1]);
      assert Next(ms[|ops| - 1], ops[|ops| - 1], ms[|ops|]);
      NextKeeps(ms[|ops| - 1], ops[|ops| - 1], ms[|ops|]);
    }
    var m := ms[|ops|];
    OrderedUsersLater(m);
    StopsUsersFirstIff(m);
    forall user, dep | user in m.order && dep in m.deps[user] ensures dep in m.order {
      var i :| 0 <= i < |m.order| && m.order[i] == user;
      assert dep in m.order[..i];
    }
  }

  /** A user left without its dependency, and the dependency started behind it. */
  lemma LoneUser(m: Apps, dep: Name, user: Name)
    requires m.order == [user] && user in m.deps && m.deps[user] == [dep] && dep != user && dep in m.registered
    ensures UsersLater(m) && !InDependencyOrder(m) && Undercuts(m, StartApp(m, dep))
  {
    assert m.order[..0] == [] && dep in m.deps[m.order[0]];
    assert NeededBy(m, dep, user) && dep in StartApp(m, dep).order;
  }

  /** With an individual stop the promise can fail: restarting a stopped dependency
      puts it behind its user, so stopping everything stops the dependency first. Up to
      the restart the promise still holds. */
  lemma RestartedDependencyStopsFirst() returns (ms: seq<Apps>, ops: seq<Op>)
    ensures IsRun(ms, ops) && |ms[|ops|].order| == 2 && |ops| == 6
    ensures UsersLater(ms[5]) && !InDependencyOrder(ms[5]) && Undercuts(ms[5], ms[6])
    ensures var m := ms[|ops|]; m.order[0] in m.deps && Reverse(m.order)[0] in m.deps[Reverse(m.order)[1]]
  {
    hide UsersLater, InDependencyOrder, Undercuts, Retain;
    var dep, user: Name := "d", "u";
    assert dep != user by { assert dep[0] != user[0]; }
    ops := [DoRegister(dep, []), DoRegister(user, [dep]), DoStart(dep), DoStart(user), DoStop(dep), DoStart(dep)];
    var g: Graph := map[dep := [], user := [dep]];
    ms := [Apps(map[], [], map[]), Apps(map[dep := []], [], map[]), Apps(g, [], map[]), Apps(g, [dep], map[dep := []]),
           Apps(g, [dep, user], map[dep := [], user := [dep]]), Apps(g, [user], map[user := [dep]]),
           Apps(g, [user, dep], map[user := [dep], dep := []])];
    StopFirst(g, dep, user);
    assert ms[6] == StartApp(ms[5], dep);
    LoneUser(ms[5], dep, user);
    assert [dep] + [user] == [dep, user];
  }

  lemma StopFirst(g: Graph, dep: Name, user: Name)
    requires dep != user
    ensures StopApp(Apps(g, [dep, user], map[dep := [], user := [dep]]), dep) == Apps(g, [user], map[user := [dep]])
  {
    assert [dep, user][..1] == [dep] && [dep][..0] == [];
    assert Retain([dep], dep) == [];
  }

  // ---------------------------------------------------------------------------
  // The manager
  // ---------------------------------------------------------------------------

  class ApplicationManager {
    var registrations: Graph
    var running: map<Name, RunState>
    var startOrder: seq<Name>
    ghost var depsAtStart: map<Name, seq<Name>>

    ghost function View(): Apps
      reads this
    {
      Apps(registrations, startOrder, depsAtStart)
    }

    ghost predicate Valid()
      reads this
    {
      && Consistent(View())
      && (forall x :: x in running <==> x in startOrder)
      && forall x :: x in running ==> running[x] == Running
    }

    constructor ()
      ensures Valid() && View() == Apps(map[], [], map[])
    {
      registrations, running, startOrder, depsAtStart := map[], map[], [], map[];
    }

    method Register(name: Name, deps: seq<Name>)
      requires Valid()
      modifies this`registrations
      ensures Valid() && Next(old(View()), DoRegister(name, deps), View())
    {
      registrations := registrations[name := deps];
    }

    /** Finish a start whose reservation is held; `starts` says whether the application's
        own `start` succeeds. */
    method StartReserved(name: Name, deps: seq<Name>, starts: bool) returns (r: Outcome)
      requires name in registrations && registrations[name] == deps
      requires Consistent(View()) && name in running && running[name] == Starting && name !in startOrder
      requires forall x :: x in running && x != name <==> x in startOrder
      requires forall x :: x in running && x != name ==> running[x] == Running
      modifies this`running, this`startOrder, this`depsAtStart
      ensures r.Done? <==> starts && forall d :: d in deps ==> d in old(startOrder)
      ensures r.Done? ==>
                && startOrder == old(startOrder) + [name] && running == old(running)[name := Running]
                && View() == StartApp(old(View()), name)
      ensures r.Failed? ==> View() == old(View()) && running == old(running)
      ensures r.Failed? ==> match r.error
                case DependencyNotStarted(d) => FirstMissing(deps, old(startOrder), d)
                case StartFailed(n) => n == name && !starts && forall d :: d in deps ==> d in old(startOrder)
                case _ => false
    {
      for i := 0 to |deps|
        invariant running == old(running) && View() == old(View())
        invariant forall k :: 0 <= k < i ==> deps[k] in startOrder
      {
        if !(deps[i] in running && running[deps[i]] == Running) {
          return Failed(DependencyNotStarted(deps[i]));
        }
      }
      if !starts {
        return Failed(StartFailed(name));
      }
      startOrder := startOrder + [name];
      running := running[name := Running];
      depsAtStart := depsAtStart[name := registrations[name]];
      r := Done;
    }

    /** Start one application, whose own `start` succeeds if `starts` says so. */
    method Start(name: Name, starts: bool) returns (r: Outcome)
      requires Valid()
      modifies this`running, this`startOrder, this`depsAtStart
      ensures Valid()
      ensures r.Done? <==>
                && name in registrations && name !in old(startOrder) && starts
                && forall d :: d in registrations[name] ==> d in old(startOrder)
      ensures r.Done? ==> startOrder == old(startOrder) + [name] && View() == StartApp(old(View()), name)
      ensures r.Failed? ==> View() == old(View()) && running == old(running)
      ensures r.Failed? ==> match r.error
                case NotFound(n) => n == name && name !in registrations
                case AlreadyStarted(n) => n == name && name in old(startOrder)
                case DependencyNotStarted(d) =>
                  name in registrations && name !in old(startOrder) && FirstMissing(registrations[name], old(startOrder), d)
                case StartFailed(n) => n == name && !starts && name in registrations && name !in old(startOrder)
                                       && forall d :: d in registrations[name] ==> d in old(startOrder)
                case _ => false
      ensures Next(old(View()), DoStart(name), View())
    {
      if name !in registrations {
        return Failed(NotFound(name));
      }
      if name in running {
        return Failed(AlreadyStarted(name));
      }
      running := running[name := Starting];
      r := StartReserved(name, registrations[name], starts);
      if r.Failed? {
        if name in running && running[name] == Starting {
          running := running - {name};
        }
        assert running == old(running);
      }
    }

    method Stop(name: Name) returns (r: Outcome)
      requires Valid()
      modifies this`running, this`startOrder, this`depsAtStart
      ensures Valid()
      ensures r == if name in old(startOrder) then Done else Failed(NotFound(name))
      ensures View() == if name in old(startOrder) then StopApp(old(View()), name) else old(View())
      ensures Next(old(View()), DoStop(name), View())
    {
      if !(name in running && running[name] == Running) {
        return Failed(NotFound(name));
      }
      StopKeepsConsistent(View(), name);
      running := running - {name};
      startOrder := Retain(startOrder, name);
      depsAtStart := depsAtStart - {name};
      r := Done;
    }

    /** Start an application and everything it needs. Either all of it runs
        afterwards, or the manager is exactly as it was; once sorting succeeds,
        only an application's own start can fail, as `starts` tells. */
    method EnsureAllStarted(name: Name, starts: Name -> bool) returns (r: EnsureOutcome)
      requires Valid()
      modifies this`running, this`startOrder, this`depsAtStart
      ensures Valid()
      ensures r.Started? <==>
                && Sortable(registrations, name)
                && forall x :: Reaches(registrations, name, x) && x !in old(startOrder) ==> starts(x)
      ensures r.Started? ==>
                && (forall x :: Reaches(registrations, name, x) ==> x in startOrder)
                && startOrder == old(startOrder) + r.names
      ensures r.NotStarted? ==> View() == old(View()) && running.Keys == old(running).Keys
      ensures r.NotStarted? ==>
                if Sortable(registrations, name)
                then && r.error.StartFailed? && Reaches(registrations, name, r.error.name)
                     && r.error.name !in old(startOrder) && !starts(r.error.name)
                else r.error.CircularDependency? || r.error.DependencyNotRegistered?
      ensures Next(old(View()), DoEnsure(name), View())
    {
      hide Sortable, Reaches, IsStartOrder, EnsuredSoFar, Ensured, Consistent, StartApp;
      var sorted := TopologicalSort(registrations, name);
      if sorted.Err? {
        return NotStarted(sorted.error);
      }
      var order := sorted.order;
      var started: seq<Name> := [];
      ghost var before := View();
      assert order[..0] == [];
      EnsureBegins(before);
      for i := 0 to |order|
        invariant Valid() && registrations == before.registered
        invariant EnsuredSoFar(before, order[..i], started, View())
        invariant forall x :: x in started ==> starts(x)
      {
        EnsureStep(before, name, order, i, started, View());
        if order[i] in running && running[order[i]] == Running {
          continue;
        }
        var one := Start(order[i], starts(order[i]));
        if one.Failed? {
          FailedIsNeeded(before, name, order, i, started, View());
          RollBack(started, before);
          return NotStarted(one.error);
        }
        started := started + [order[i]];
      }
      assert order[..|order|] == order;
      EnsureEnds(before, name, order, started, View());
      r := Started(started);
    }

    /** Stop what this call started, last first. */
    method RollBack(started: seq<Name>, ghost before: Apps)
      requires Valid() && Consistent(before) && before.registered == registrations
      requires exists order :: EnsuredSoFar(before, order, started, View())
      modifies this`running, this`startOrder, this`depsAtStart
      ensures Valid() && View() == before
    {
      hide StartAll, StopApp, Missing;
      EnsureBegins(before);
      assert started[..0] == [];
      ghost var order :| EnsuredSoFar(before, order, started, View());
      MissingNoRepeats(before, order);
      var k := |started|;
      assert started[..k] == started;
      while k > 0
        invariant 0 <= k <= |started| && Valid() && registrations == before.registered
        invariant View() == StartAll(before, started[..k])
      {
        k := k - 1;
        assert started[..k + 1][..k] == started[..k];
        assert started[k] in started;
        UndoLast(before, started, k);
        var _ := Stop(started[k]);
      }
    }

    /** Stop everything, last started first. */
    method StopAll() returns (stopped: seq<Name>, firstError: Outcome)
      requires Valid()
      modifies this`running, this`startOrder, this`depsAtStart
      ensures Valid() && startOrder == [] && running == map[]
      ensures stopped == Reverse(old(startOrder)) && firstError == Done
      ensures Next(old(View()), DoStopAll, View())
    {
      hide Retain, NoRepeats;
      var order := Reverse(startOrder);
      ghost var all := startOrder;
      stopped, firstError := [], Done;
      for i := 0 to |order|
        invariant Valid() && registrations == old(registrations)
        invariant startOrder == all[..|all| - i]
        invariant stopped == order[..i] && firstError == Done
      {
        RetainLast(all, |all| - i - 1);
        assert startOrder[|startOrder| - 1] == order[i];
        var one := Stop(order[i]);
        if one.Failed? && firstError.Done? { firstError := one; }
        stopped := stopped + [order[i]];
      }
      assert startOrder == [];
      assert running == map[];
      assert depsAtStart == map[];
    }
  }

  /** The part `done` of the order has been gone through and `started` is what
      had to be started. */
  ghost predicate EnsuredSoFar(m: Apps, done: seq<Name>, started: seq<Name>, m': Apps)
  {
    && NoRepeats(done)
    && (forall x :: x in done ==> x in m.registered)
    && started == Missing(m, done)
    && m' == StartAll(m, started)
    && forall x :: x in m'.order <==> x in m.order || x in done
  }

  lemma EnsureBegins(m: Apps)
    ensures EnsuredSoFar(m, [], [], m)
  {
  }

  lemma EnsureStep(m: Apps, name: Name, order: seq<Name>, i: nat, started: seq<Name>, m': Apps)
    requires IsStartOrder(m.registered, name, order) && i < |order|
    requires EnsuredSoFar(m, order[..i], started, m')
    ensures order[i] in m.registered && forall d :: d in m.registered[order[i]] ==> d in m'.order
    ensures order[i] in m'.order ==> EnsuredSoFar(m, order[..i + 1], started, m')
    ensures order[i] !in m'.order && m'.registered == m.registered ==>
              EnsuredSoFar(m, order[..i + 1], started + [order[i]], StartApp(m', order[i]))
  {
    hide Reaches;
    var done, next := order[..i], order[..i + 1];
    assert next == done + [order[i]] && next[..|next| - 1] == done;
    assert order[i] !in done;
    if order[i] !in m'.order {
      assert (started + [order[i]])[..|started|] == started;
    }
  }

  /** What failed to start is needed and was not running before the call. */
  lemma FailedIsNeeded(m: Apps, name: Name, order: seq<Name>, i: nat, started: seq<Name>, m': Apps)
    requires IsStartOrder(m.registered, name, order) && i < |order| && order[i] !in m'.order
    requires EnsuredSoFar(m, order[..i], started, m')
    ensures Reaches(m.registered, name, order[i]) && order[i] !in m.order
  {
    hide Reaches;
    assert order[i] in order;
  }

  lemma EnsureEnds(m: Apps, name: Name, order: seq<Name>, started: seq<Name>, m': Apps)
    requires IsStartOrder(m.registered, name, order) && EnsuredSoFar(m, order, started, m')
    ensures Ensured(m, name, order, m') && Next(m, DoEnsure(name), m')
    ensures m'.order == m.order + started && forall x :: Reaches(m.registered, name, x) ==> x in m'.order
    ensures forall x :: x in started <==> Reaches(m.registered, name, x) && x !in m.order
  {
    StartAllOrder(m, started);
    assert Ensured(m, name, order, m');
  }

  lemma {:induction false} MissingNoRepeats(m: Apps, order: seq<Name>)
    requires NoRepeats(order)
    ensures NoRepeats(Missing(m, order))
    decreases |order|
  {
    if order != [] {
      MissingNoRepeats(m, order[..|order| - 1]);
      assert order[|order| - 1] !in order[..|order| - 1];
    }
  }

  /** Stopping the last of a list without repeats leaves the rest. */
  lemma RetainLast(s: seq<Name>, k: nat)
    requires NoRepeats(s) && k < |s|
    ensures Retain(s[..k + 1], s[k]) == s[..k]
  {
    assert s[..k + 1][..k] == s[..k];
    RetainAbsent(s[..k], s[k]);
  }

  lemma UndoLast(m: Apps, started: seq<Name>, k: nat)
    requires Consistent(m) && NoRepeats(started) && k < |started|
    requires forall x :: x in started ==> x in m.registered && x !in m.order
    ensures StopApp(StartAll(m, started[..k + 1]), started[k]) == StartAll(m, started[..k])
    ensures started[k] in StartAll(m, started[..k + 1]).order
  {
    assert started[..k + 1][..k] == started[..k];
    StartAllOrder(m, started[..k]);
    StartAllConsistent(m, started[..k]);
    assert started[k] !in started[..k];
    StopUndoesStart(StartAll(m, started[..k]), started[k]);
  }

  lemma {:induction false} StartAllConsistent(m: Apps, names: seq<Name>)
    requires Consistent(m) && NoRepeats(names) && forall x :: x in names ==> x in m.registered && x !in m.order
    ensures Consistent(StartAll(m, names))
    decreases |names|
  {
    if names != [] {
      var init := names[..|names| - 1];
      StartAllConsistent(m, init);
      StartAllOrder(m, init);
      assert names[|names| - 1] in names && names[|names| - 1] !in init;
      StartKeepsConsistent(StartAll(m, init), names[|names| - 1]);
    }
  }
}

/** The name registry as an observed-remove set: tagged adds, tombstoned tags,
    and a last-writer-wins lookup. */
module OrSet {
  import opened Values

  type Tag = nat

  datatype Pid = Pid(node: nat, local: nat)

  datatype Entry = Entry(name: string, pid: Pid, tag: Tag, timestamp: nat, node: nat)

  datatype Delta = Add(entry: Entry) | Remove(name: string, tag: Tag)

  /** Live entries and tombstoned tags; the tombstones oldest first. */
  datatype Replica = Replica(live: set<Entry>, dead: seq<Tag>)

  const EMPTY := Replica({}, [])

  ghost function Tags(s: seq<Tag>): set<Tag>
  {
    set t | t in s
  }

  /** Record a tombstone. A known tag keeps its age; beyond the cap the oldest goes. */
  function Bury(dead: seq<Tag>, t: Tag, cap: nat): (r: seq<Tag>)
  {
    if t in dead then dead
    else if |dead| + 1 > cap then (dead + [t])[|dead| + 1 - cap..]
    else dead + [t]
  }

  /** Merging one delta. */
  function Merge(r: Replica, d: Delta, cap: nat): Replica
  {
    match d
    case Add(e) => if e.tag in r.dead then r else r.(live := r.live + {e})
    case Remove(_, t) => Replica((set e | e in r.live && e.tag != t), Bury(r.dead, t, cap))
  }

  function MergeAll(r: Replica, ds: seq<Delta>, cap: nat): Replica
  {
    if ds == [] then r else Merge(MergeAll(r, ds[..|ds| - 1], cap), ds[|ds| - 1], cap)
  }

  ghost function Removed(ds: seq<Delta>): set<Tag>
  {
    set d | d in ds && d.Remove? :: d.tag
  }

  ghost function Added(ds: seq<Delta>): set<Entry>
  {
    set d | d in ds && d.Add? :: d.entry
  }

  ghost predicate Distinct(s: seq<Tag>)
  {
    forall i, j :: 0 <= i < j < |s| ==> s[i] != s[j]
  }

  /** No entry is live under a tombstoned tag, and no tag is buried twice. */
  ghost predicate Sound(r: Replica)
  {
    && (forall e :: e in r.live ==> e.tag !in r.dead)
    && Distinct(r.dead)
  }

  // ---------------------------------------------------------------------------
  // Convergence
  // ---------------------------------------------------------------------------

  /** What any sequence of deltas amounts to, in whatever order they come. */
  ghost function Outcome(r: Replica, ds: seq<Delta>): (set<Entry>, set<Tag>)
  {
    var dead := Tags(r.dead) + Removed(ds);
    ((set e | e in r.live + Added(ds) && e.tag !in dead), dead)
  }

  lemma OutcomeStep(r: Replica, ds: seq<Delta>, d: Delta)
    ensures Added(ds + [d]) == Added(ds) + (if d.Add? then {d.entry} else {})
    ensures Removed(ds + [d]) == Removed(ds) + (if d.Remove? then {d.tag} else {})
  {
  }

  lemma {:induction false} DistinctSize(s: seq<Tag>)
    requires Distinct(s)
    ensures |Tags(s)| == |s|
    decreases |s|
  {
    if s != [] {
      var init, last := s[..|s| - 1], s[|s| - 1];
      DistinctSize(init);
      assert Tags(s) == Tags(init) + {last};
      assert last !in Tags(init);
    }
  }

  lemma SmallerSet(a: set<Tag>, b: set<Tag>)
    requires a <= b
    ensures |a| <= |b|
    decreases a
  {
    if a != {} {
      var x :| x in a;
      SmallerSet(a - {x}, b - {x});
    }
  }

  /** The closed form. As long as the distinct tombstones fit the cap, merging
      any deltas in any order, with any repetition, leaves exactly the entries
      known or added whose tag was never removed. */
  lemma {:induction false} MergeAllOutcome(r: Replica, ds: seq<Delta>, cap: nat)
    requires Sound(r) && |Tags(r.dead) + Removed(ds)| <= cap
    ensures var m := MergeAll(r, ds, cap); Sound(m) && (m.live, Tags(m.dead)) == Outcome(r, ds)
    decreases |ds|
  {
    hide Merge, Outcome, Distinct;
    if ds == [] {
      NothingMerged(r);
    } else {
      var init, d := ds[..|ds| - 1], ds[|ds| - 1];
      assert ds == init + [d];
      OutcomeStep(r, init, d);
      SmallerSet(Tags(r.dead) + Removed(init), Tags(r.dead) + Removed(ds));
      MergeAllOutcome(r, init, cap);
      var m := MergeAll(r, init, cap);
      if d.Remove? && d.tag !in m.dead { RoomLeft(r, init, d, m); }
      MergeOutcomeStep(r, init, d, m, cap);
    }
  }

  lemma NothingMerged(r: Replica)
    requires Sound(r)
    ensures (r.live, Tags(r.dead)) == Outcome(r, [])
  {
    var none: seq<Delta> := [];
    assert Removed(none) == {} && Added(none) == {};
    assert Tags(r.dead) + {} == Tags(r.dead);
    assert r.live == Outcome(r, none).0;
  }

  /** Burying one more tag makes the tombstones as many as the distinct ones so far. */
  lemma RoomLeft(r: Replica, ds: seq<Delta>, d: Delta, m: Replica)
    requires Sound(m) && Tags(m.dead) == Outcome(r, ds).1 && d.Remove? && d.tag !in m.dead
    ensures |m.dead| + 1 == |Tags(r.dead) + Removed(ds + [d])|
  {
    OutcomeStep(r, ds, d);
    DistinctSize(m.dead);
    assert Tags(m.dead) + {d.tag} == Tags(r.dead) + Removed(ds + [d]);
  }

  lemma MergeOutcomeStep(r: Replica, ds: seq<Delta>, d: Delta, m: Replica, cap: nat)
    requires Sound(m) && (m.live, Tags(m.dead)) == Outcome(r, ds)
    requires d.Remove? && d.tag !in m.dead ==> |m.dead| + 1 <= cap
    ensures var m' := Merge(m, d, cap); Sound(m') && (m'.live, Tags(m'.dead)) == Outcome(r, ds + [d])
  {
    hide Bury;
    OutcomeStep(r, ds, d);
    var m', out := Merge(m, d, cap), Outcome(r, ds + [d]);
    match d
    case Add(e) =>
      assert Tags(m'.dead) == out.1;
      assert e.tag in m.dead <==> e.tag in Tags(m.dead);
      assert m'.live == out.0;
    case Remove(_, t) =>
      MergeRemove(m, d, cap);
      assert Tags(m'.dead) == out.1;
      assert m'.live == out.0;
  }

  lemma MergeRemove(m: Replica, d: Delta, cap: nat)
    requires Sound(m) && d.Remove? && (d.tag !in m.dead ==> |m.dead| + 1 <= cap)
    ensures Sound(Merge(m, d, cap)) && Tags(Merge(m, d, cap).dead) == Tags(m.dead) + {d.tag}
  {
    assert Tags(m.dead + [d.tag]) == Tags(m.dead) + {d.tag};
  }

  /** Convergence: two replicas that received the same deltas - in any order, any
      number of times each - hold the same live entries and the same tombstones,
      namely the adds whose tag is not removed. */
  lemma Convergence(a: seq<Delta>, b: seq<Delta>, cap: nat)
    requires forall d :: d in a <==> d in b
    requires |Removed(a)| <= cap
    ensures var ra, rb := MergeAll(EMPTY, a, cap), MergeAll(EMPTY, b, cap);
            && ra.live == rb.live == (set e | e in Added(a) && e.tag !in Removed(a))
            && Tags(ra.dead) == Tags(rb.dead) == Removed(a)
  {
    assert Removed(a) == Removed(b) && Added(a) == Added(b);
    assert Tags(EMPTY.dead) + Removed(a) == Removed(a);
    MergeAllOutcome(EMPTY, a, cap);
    MergeAllOutcome(EMPTY, b, cap);
  }

  // ---------------------------------------------------------------------------
  // The cap is exactly what convergence needs
  // ---------------------------------------------------------------------------

  ghost predicate SameDeltas(ds: seq<Delta>, elems: set<Delta>)
  {
    forall d :: d in ds <==> d in elems
  }

  ghost function RemovedTags(elems: set<Delta>): set<Tag>
  {
    set d | d in elems && d.Remove? :: d.tag
  }

  /** Every arrival order of the deltas leads to the same live entries and tombstones. */
  ghost predicate OrderIrrelevant(elems: set<Delta>, cap: nat)
  {
    forall a, b :: SameDeltas(a, elems) && SameDeltas(b, elems) ==>
      var ra, rb := MergeAll(EMPTY, a, cap), MergeAll(EMPTY, b, cap);
      ra.live == rb.live && Tags(ra.dead) == Tags(rb.dead)
  }

  lemma AsSequence(elems: set<Delta>) returns (ds: seq<Delta>)
    ensures SameDeltas(ds, elems)
    decreases elems
  {
    if elems == {} {
      ds := [];
    } else {
      var d :| d in elems;
      var rest := AsSequence(elems - {d});
      ds := rest + [d];
    }
  }

  lemma {:induction false} MergeAllAppend(r: Replica, a: seq<Delta>, b: seq<Delta>, cap: nat)
    ensures MergeAll(r, a + b, cap) == MergeAll(MergeAll(r, a, cap), b, cap)
    decreases |b|
  {
    if b == [] {
      assert a + b == a;
    } else {
      var init := b[..|b| - 1];
      assert (a + b)[..|a + b| - 1] == a + init;
      MergeAllAppend(r, a, init, cap);
    }
  }

  /** Tombstones that come last stay. */
  lemma {:induction false} LastRemoveStays(r: Replica, ds: seq<Delta>, t: Tag, cap: nat)
    requires cap > 0 && ds != [] && forall d :: d in ds ==> d.Remove? && d.tag == t
    ensures t in MergeAll(r, ds, cap).dead
  {
    assert ds[|ds| - 1] in ds;
    var dead := MergeAll(r, ds[..|ds| - 1], cap).dead;
    if t !in dead {
      var buried := Bury(dead, t, cap);
      assert buried[|buried| - 1] == t;
    }
  }

  /** Starting with `t` as the only tombstone, either `t` is still the oldest and
      every other removed tag is kept behind it, or `t` has been evicted. */
  lemma {:induction false} OldestOrEvicted(r: Replica, ds: seq<Delta>, t: Tag, cap: nat)
    requires cap > 0 && r.dead == [t] && forall d :: d in ds && d.Remove? ==> d.tag != t
    ensures var dead := MergeAll(r, ds, cap).dead;
            t in dead ==> |dead| <= cap && dead[0] == t && Removed(ds) <= Tags(dead[1..])
    decreases |ds|
  {
    if ds == [] {
      assert Removed(ds) == {};
    } else {
      var init, d := ds[..|ds| - 1], ds[|ds| - 1];
      assert ds == init + [d] && d in ds;
      OldestOrEvicted(r, init, t, cap);
      OutcomeStep(r, init, d);
      var before, dead := MergeAll(r, init, cap).dead, MergeAll(r, ds, cap).dead;
      if t in dead {
        if t in before && d.Remove? && d.tag !in before {
          if |before| + 1 > cap {
            assert |before| == cap;
            assert dead == (before + [d.tag])[1..];
            NotInTail(r, init, t, cap);
          } else {
            assert dead[1..] == before[1..] + [d.tag];
          }
        } else if t in before && d.Remove? {
          assert before[0] == t;
          assert d.tag in before[1..];
        }
      }
    }
  }

  lemma {:induction false} DeadDistinct(r: Replica, ds: seq<Delta>, cap: nat)
    requires Distinct(r.dead)
    ensures Distinct(MergeAll(r, ds, cap).dead)
    decreases |ds|
  {
    hide Bury;
    if ds != [] {
      DeadDistinct(r, ds[..|ds| - 1], cap);
      var d := ds[|ds| - 1];
      if d.Remove? { BuryDistinct(MergeAll(r, ds[..|ds| - 1], cap).dead, d.tag, cap); }
    }
  }

  lemma BuryDistinct(dead: seq<Tag>, t: Tag, cap: nat)
    requires Distinct(dead)
    ensures Distinct(Bury(dead, t, cap))
  {
    if t !in dead {
      var all := dead + [t];
      assert Distinct(all);
    }
  }

  lemma NotInTail(r: Replica, ds: seq<Delta>, t: Tag, cap: nat)
    requires r.dead == [t]
    ensures var dead := MergeAll(r, ds, cap).dead; dead != [] && dead[0] == t ==> t !in dead[1..]
  {
    DeadDistinct(r, ds, cap);
  }

  /** Beyond the cap two arrival orders of the same deltas disagree: a tag removed
      first is evicted by the others, a tag removed last is kept. */
  lemma OverCapDiverges(elems: set<Delta>, cap: nat)
    requires cap > 0 && |RemovedTags(elems)| > cap
    ensures !OrderIrrelevant(elems, cap)
  {
    hide MergeAll, Bury;
    var d0 :| d0 in elems && d0.Remove?;
    var t := d0.tag;
    var mine := set d | d in elems && d.Remove? && d.tag == t;
    var ms := AsSequence(mine);
    var os := AsSequence(elems - mine);
    assert d0 in ms;
    assert SameDeltas(os + ms, elems) && SameDeltas(ms + os, elems);
    assert t in Tags(MergeAll(EMPTY, os + ms, cap).dead) by {
      MergeAllAppend(EMPTY, os, ms, cap);
      LastRemoveStays(MergeAll(EMPTY, os, cap), ms, t, cap);
    }
    assert t !in Tags(MergeAll(EMPTY, ms + os, cap).dead) by {
      MergeAllAppend(EMPTY, ms, os, cap);
      OnlyOne(ms, t, cap);
      assert Removed(os) == RemovedTags(elems) - {t};
      FirstRemoveIsEvicted(MergeAll(EMPTY, ms, cap), os, t, cap);
    }
  }

  lemma FirstRemoveIsEvicted(r: Replica, ds: seq<Delta>, t: Tag, cap: nat)
    requires cap > 0 && r.dead == [t] && t !in Removed(ds) && |Removed(ds)| >= cap
    ensures t !in MergeAll(r, ds, cap).dead
  {
    forall d | d in ds && d.Remove? ensures d.tag != t { assert d.tag in Removed(ds); }
    OldestOrEvicted(r, ds, t, cap);
    var dead := MergeAll(r, ds, cap).dead;
    DeadDistinct(r, ds, cap);
    if t in dead {
      SmallerSet(Removed(ds), Tags(dead[1..]));
      DistinctSize(dead[1..]);
      assert false;
    }
  }

  lemma {:induction false} OnlyOne(ds: seq<Delta>, t: Tag, cap: nat)
    requires cap > 0 && ds != [] && forall d :: d in ds ==> d.Remove? && d.tag == t
    ensures MergeAll(EMPTY, ds, cap).dead == [t]
    decreases |ds|
  {
    assert ds[|ds| - 1] in ds;
    if |ds| > 1 { OnlyOne(ds[..|ds| - 1], t, cap); } else { assert ds[..0] == []; }
  }

  /** Convergence under a cap, exactly: arrival order is irrelevant if and only if
      the distinct removed tags fit the cap. */
  lemma ConvergesIffUnderCap(elems: set<Delta>, cap: nat)
    requires cap > 0
    ensures OrderIrrelevant(elems, cap) <==> |RemovedTags(elems)| <= cap
  {
    if |RemovedTags(elems)| <= cap {
      forall a, b | SameDeltas(a, elems) && SameDeltas(b, elems)
        ensures var ra, rb := MergeAll(EMPTY, a, cap), MergeAll(EMPTY, b, cap);
                ra.live == rb.live && Tags(ra.dead) == Tags(rb.dead)
      {
        assert Removed(a) == RemovedTags(elems);
        Convergence(a, b, cap);
      }
    } else {
      OverCapDiverges(elems, cap);
    }
  }

  // ---------------------------------------------------------------------------
  // Expiry
  // ---------------------------------------------------------------------------

  /** Forget the `k` oldest tombstones. */
  function Expired(r: Replica, k: nat): Replica
    requires k <= |r.dead|
  {
    r.(dead := r.dead[k..])
  }

  /** Adds that nothing but an expired tombstone would have stopped. */
  ghost function Resurrected(r: Replica, k: nat, ds: seq<Delta>): set<Entry>
    requires k <= |r.dead|
  {
    set e | e in Added(ds) && e.tag in r.dead[..k] && e.tag !in Removed(ds)
  }

  lemma ExpiredOutcome(r: Replica, k: nat, ds: seq<Delta>)
    requires Sound(r) && k <= |r.dead|
    ensures Outcome(Expired(r, k), ds).0 == Outcome(r, ds).0 + Resurrected(r, k, ds)
    ensures Outcome(r, ds).0 !! Resurrected(r, k, ds)
  {
    var kept := r.dead[k..];
    assert r.dead == r.dead[..k] + kept;
    assert forall t :: t in r.dead <==> t in r.dead[..k] || t in kept;
    forall t | t in r.dead[..k] ensures t !in kept {
      var i :| 0 <= i < k && r.dead[i] == t;
    }
    assert forall t :: t in Tags(r.dead) <==> t in r.dead;
    assert forall t :: t in Tags(kept) <==> t in kept;
  }

  /** Expiry, exactly: merging any further deltas after forgetting some tombstones gives
      the live entries it would have given without if and only if no later add carries a
      forgotten tag that is not removed again; otherwise just those entries come back. */
  lemma ExpiryHarmlessIff(r: Replica, k: nat, ds: seq<Delta>, cap: nat)
    requires Sound(r) && k <= |r.dead| && |Tags(r.dead) + Removed(ds)| <= cap
    ensures var with, without := MergeAll(Expired(r, k), ds, cap).live, MergeAll(r, ds, cap).live;
            && with == without + Resurrected(r, k, ds)
            && (with == without <==> forall e :: e in Added(ds) && e.tag in r.dead[..k] ==> e.tag in Removed(ds))
  {
    var e := Expired(r, k);
    assert forall x :: x in e.dead ==> x in r.dead;
    SmallerSet(Tags(e.dead) + Removed(ds), Tags(r.dead) + Removed(ds));
    MergeAllOutcome(r, ds, cap);
    MergeAllOutcome(e, ds, cap);
    ExpiredOutcome(r, k, ds);
    hide Outcome, MergeAll;
    var back := Resurrected(r, k, ds);
    if forall x :: x in Added(ds) && x.tag in r.dead[..k] ==> x.tag in Removed(ds) {
      assert back == {};
    } else {
      var x :| x in Added(ds) && x.tag in r.dead[..k] && x.tag !in Removed(ds);
      assert x in back;
    }
  }

  // ---------------------------------------------------------------------------
  // Full synchronisation
  // ---------------------------------------------------------------------------

  /** The deltas a replica sends for a full sync: all it has, all it buried. */
  ghost predicate FullSync(r: Replica, ds: seq<Delta>)
  {
    Added(ds) == r.live && Removed(ds) == Tags(r.dead)
  }

  /** The least replica that knows everything both know. */
  ghost function Join(a: (set<Entry>, set<Tag>), b: (set<Entry>, set<Tag>)): (set<Entry>, set<Tag>)
  {
    var dead := a.1 + b.1;
    ((set e | e in a.0 + b.0 && e.tag !in dead), dead)
  }

  ghost function Known(r: Replica): (set<Entry>, set<Tag>)
  {
    (r.live, Tags(r.dead))
  }

  /** Merging a full sync is a join. */
  lemma FullSyncIsJoin(a: Replica, b: Replica, ds: seq<Delta>, cap: nat)
    requires Sound(a) && FullSync(b, ds) && |Tags(a.dead) + Tags(b.dead)| <= cap
    ensures Sound(MergeAll(a, ds, cap)) && Known(MergeAll(a, ds, cap)) == Join(Known(a), Known(b))
  {
    MergeAllOutcome(a, ds, cap);
  }

  /** The join is commutative, associative and idempotent on sound replicas. */
  lemma JoinLaws(a: Replica, b: Replica, c: Replica)
    requires Sound(a) && Sound(b) && Sound(c)
    ensures Join(Known(a), Known(b)) == Join(Known(b), Known(a))
    ensures Join(Join(Known(a), Known(b)), Known(c)) == Join(Known(a), Join(Known(b), Known(c)))
    ensures Join(Known(a), Known(a)) == Known(a)
  {
    var x, y, z := Known(a), Known(b), Known(c);
    assert x.1 + y.1 == y.1 + x.1;
    assert Join(x, y).0 == Join(y, x).0;
    assert (x.1 + y.1) + z.1 == x.1 + (y.1 + z.1);
    assert Join(Join(x, y), z).0 == Join(x, Join(y, z)).0;
    assert x.1 + x.1 == x.1;
    assert forall e :: e in x.0 ==> e.tag !in x.1;
    assert Join(x, x).0 == x.0;
  }

  /** After each side merges the other's full sync, both know the same. */
  lemma TwoWaySyncAgrees(a: Replica, b: Replica, fromA: seq<Delta>, fromB: seq<Delta>, cap: nat)
    requires Sound(a) && Sound(b) && FullSync(a, fromA) && FullSync(b, fromB)
    requires |Tags(a.dead) + Tags(b.dead)| <= cap
    ensures Known(MergeAll(a, fromB, cap)) == Known(MergeAll(b, fromA, cap))
  {
    assert Tags(b.dead) + Tags(a.dead) == Tags(a.dead) + Tags(b.dead);
    FullSyncIsJoin(a, b, fromB, cap);
    FullSyncIsJoin(b, a, fromA, cap);
    JoinLaws(a, b, a);
  }

  // ---------------------------------------------------------------------------
  // Lookup
  // ---------------------------------------------------------------------------

  /** `a` loses to `b`: an older write, or the same time from a lower node. */
  predicate Below(a: Entry, b: Entry)
  {
    a.timestamp < b.timestamp || (a.timestamp == b.timestamp && a.node < b.node)
  }

  predicate SameKey(a: Entry, b: Entry)
  {
    a.timestamp == b.timestamp && a.node == b.node
  }

  /** The winner: the last of the entries with the highest key. */
  function Winner(es: seq<Entry>): (r: Option<Entry>)
  {
    if es == [] then None
    else
      var best, x := Winner(es[..|es| - 1]), es[|es| - 1];
      if best.None? || !Below(x, best.value) then Some(x) else best
  }

  /** Nothing that arrived after `es[k]` was written at the same time by the same node. */
  ghost predicate LastOfItsKey(es: seq<Entry>, k: nat)
  {
    k < |es| && forall j :: k < j < |es| ==> es[j].timestamp != es[k].timestamp || es[j].node != es[k].node
  }

  lemma {:induction false} WinnerAt(es: seq<Entry>) returns (k: nat)
    requires es != []
    ensures k < |es| && Winner(es) == Some(es[k])
    ensures forall j :: 0 <= j < |es| ==> !Below(es[k], es[j])
    ensures forall j :: k < j < |es| ==> Below(es[j], es[k])
    decreases |es|
  {
    var n := |es| - 1;
    k := n;
    if n > 0 {
      var init := es[..n];
      assert forall j :: 0 <= j < n ==> init[j] == es[j];
      var best := WinnerAt(init);
      if Below(es[n], es[best]) { k := best; }
    }
  }

  /** The winner is the newest write, of the highest node among the newest, and the last
      to arrive among those. */
  lemma WinnerIsHighest(es: seq<Entry>)
    ensures es == [] <==> Winner(es).None?
    ensures es != [] ==>
              var w := Winner(es).value;
              && w in es
              && forall e :: e in es ==> e.timestamp < w.timestamp || (e.timestamp == w.timestamp && e.node <= w.node)
    ensures es != [] ==>
              exists k :: 0 <= k < |es| && es[k] == Winner(es).value && LastOfItsKey(es, k)
  {
    if es != [] {
      var k := WinnerAt(es);
    }
  }

  /** Two replicas that hold the same entries for a name resolve it to the same
      (timestamp, node) key, and to the same entry when keys are distinct. */
  lemma LookupAgrees(a: seq<Entry>, b: seq<Entry>)
    requires forall e :: e in a <==> e in b
    ensures Winner(a).Some? == Winner(b).Some?
    ensures Winner(a).Some? ==> SameKey(Winner(a).value, Winner(b).value)
    ensures (forall x, y :: x in a && y in a && SameKey(x, y) ==> x == y) ==> Winner(a) == Winner(b)
  {
    WinnerIsHighest(a);
    WinnerIsHighest(b);
    assert a != [] ==> a[0] in b;
    assert b != [] ==> b[0] in a;
  }

  ghost predicate SameEntries(es: seq<Entry>, s: set<Entry>)
  {
    forall e :: e in es <==> e in s
  }

  /** Every arrival order of the entries resolves to the same winner. */
  ghost predicate WinnerIsStable(s: set<Entry>)
  {
    forall a, b :: SameEntries(a, s) && SameEntries(b, s) ==> Winner(a) == Winner(b)
  }

  /** No entry is newer, nor as new and from a higher node. */
  ghost predicate Highest(s: set<Entry>, x: Entry)
  {
    forall e :: e in s ==> e.timestamp < x.timestamp || (e.timestamp == x.timestamp && e.node <= x.node)
  }

  /** The highest key is held by one entry only. */
  ghost predicate UniqueHighest(s: set<Entry>)
  {
    forall x, y :: x in s && y in s && SameKey(x, y) && Highest(s, x) ==> x == y
  }

  lemma Arrange(s: set<Entry>) returns (es: seq<Entry>)
    ensures SameEntries(es, s)
    decreases s
  {
    if s == {} {
      es := [];
    } else {
      var e :| e in s;
      var rest := Arrange(s - {e});
      es := rest + [e];
    }
  }

  /** An entry nobody beats wins when it arrives last. */
  lemma LastHighestWins(s: set<Entry>, x: Entry) returns (es: seq<Entry>)
    requires x in s && Highest(s, x)
    ensures SameEntries(es, s) && Winner(es) == Some(x)
  {
    var rest := Arrange(s - {x});
    es := rest + [x];
    assert es[..|es| - 1] == rest;
    WinnerIsHighest(rest);
  }

  /** Lookup does not depend on arrival order if and only if the highest key is unique. */
  lemma LookupStableIff(s: set<Entry>)
    ensures WinnerIsStable(s) <==> UniqueHighest(s)
  {
    if UniqueHighest(s) {
      forall a, b | SameEntries(a, s) && SameEntries(b, s) ensures Winner(a) == Winner(b) {
        WinnerIsHighest(a);
        WinnerIsHighest(b);
        LookupAgrees(a, b);
      }
    } else {
      var x, y :| x in s && y in s && SameKey(x, y) && Highest(s, x) && x != y;
      var xs := LastHighestWins(s, x);
      var ys := LastHighestWins(s, y);
    }
  }
}

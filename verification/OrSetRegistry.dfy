/** The registry object: entries by name and tombstones by tag, updated in place.
    Its view is an `OrSet.Replica`, and every operation is a merge on that view. */
module OrSetRegistry {
  import opened Values
  import opened OrSet

  datatype Tombstone = Tombstone(name: string, generation: nat)

  /** A second live registration of a name, with what the merge recorded as
      winner and loser. */
  datatype NameConflict = NameConflict(name: string, winner: Entry, loser: Entry)

  type Entries = map<string, seq<Entry>>

  ghost function LiveIn(entries: Entries): set<Entry>
  {
    set n, e | n in entries && e in entries[n] :: e
  }

  /** The entries of a list that do not carry `t`, in order. */
  function Keep(es: seq<Entry>, t: Tag): (r: seq<Entry>)
    ensures forall e :: e in r <==> e in es && e.tag != t
  {
    if es == [] then [] else
      var init, x := Keep(es[..|es| - 1], t), es[|es| - 1];
      assert es == es[..|es| - 1] + [x];
      if x.tag == t then init else init + [x]
  }

  lemma {:induction false} KeepLength(es: seq<Entry>, t: Tag)
    ensures |Keep(es, t)| <= |es|
    ensures |Keep(es, t)| < |es| <==> exists e :: e in es && e.tag == t
    decreases |es|
  {
    if es != [] {
      KeepLength(es[..|es| - 1], t);
      assert es == es[..|es| - 1] + [es[|es| - 1]];
    }
  }

  /** The entries kept stay in the order they came. */
  lemma {:induction false} KeepInOrder(a: seq<Entry>, b: seq<Entry>, t: Tag)
    ensures Keep(a + b, t) == Keep(a, t) + Keep(b, t)
    ensures |a| == 1 && a[0].tag != t ==> Keep(a, t) == a
    decreases |b|
  {
    if |a| == 1 { assert a[..0] == [] && [] + a == a; }
    if b == [] {
      assert a + b == a;
    } else {
      var n := |b| - 1;
      KeepInOrder(a, b[..n], t);
      assert (a + b)[..|a| + n] == a + b[..n];
    }
  }

  /** Names are filed correctly, no list is empty, and a tag names one entry. */
  ghost predicate WellFiled(entries: Entries)
  {
    && (forall n :: n in entries ==> entries[n] != [])
    && (forall n, e :: n in entries && e in entries[n] ==> e.name == n)
    && (forall e, f :: e in LiveIn(entries) && f in LiveIn(entries) && e.tag == f.tag ==> e == f)
  }

  /** The tombstones in the order of their generations. */
  ghost predicate Ordered(tombstones: map<Tag, Tombstone>, order: seq<Tag>, generation: nat)
  {
    && Distinct(order)
    && Tags(order) == tombstones.Keys
    && (forall i, j :: 0 <= i < j < |order| ==>
          order[i] in tombstones && order[j] in tombstones &&
          tombstones[order[i]].generation < tombstones[order[j]].generation)
    && (forall t :: t in tombstones ==> tombstones[t].generation <= generation)
  }

  lemma OrderSize(tombstones: map<Tag, Tombstone>, order: seq<Tag>, generation: nat)
    requires Ordered(tombstones, order, generation)
    ensures |tombstones| == |order|
  {
    DistinctSize(order);
    assert |tombstones| == |tombstones.Keys|;
  }

  /** Only the oldest tombstone has the least generation. */
  lemma LeastIsOldest(tombstones: map<Tag, Tombstone>, order: seq<Tag>, generation: nat, victim: Tag)
    requires Ordered(tombstones, order, generation) && victim in tombstones
    requires forall t :: t in tombstones ==> tombstones[victim].generation <= tombstones[t].generation
    ensures order != [] && order[0] == victim
  {
    assert victim in Tags(order);
    var k :| 0 <= k < |order| && order[k] == victim;
    assert order[0] in Tags(order);
    assert forall i :: 0 < i < |order| ==> tombstones[order[0]].generation < tombstones[order[i]].generation;
  }

  lemma OrderIsKeys(tombstones: map<Tag, Tombstone>, order: seq<Tag>, generation: nat, t: Tag)
    requires Ordered(tombstones, order, generation)
    ensures t in order <==> t in tombstones
  {
    assert t in order <==> t in Tags(order);
  }

  lemma EvictOldest(tombstones: map<Tag, Tombstone>, order: seq<Tag>, generation: nat)
    requires Ordered(tombstones, order, generation) && order != []
    ensures Ordered(tombstones - {order[0]}, order[1..], generation)
  {
    assert Tags(order) == {order[0]} + Tags(order[1..]);
    assert order[0] !in Tags(order[1..]);
  }

  lemma AddNewest(tombstones: map<Tag, Tombstone>, order: seq<Tag>, generation: nat, t: Tag, name: string)
    requires Ordered(tombstones, order, generation) && t !in tombstones
    ensures Ordered(tombstones[t := Tombstone(name, generation + 1)], order + [t], generation + 1)
  {
    assert Tags(order + [t]) == Tags(order) + {t};
    assert t !in Tags(order);
    forall i | 0 <= i < |order| ensures order[i] in tombstones { assert order[i] in Tags(order); }
  }

  lemma RenameKeeps(tombstones: map<Tag, Tombstone>, order: seq<Tag>, generation: nat, t: Tag, name: string)
    requires Ordered(tombstones, order, generation) && t in tombstones
    ensures Ordered(tombstones[t := tombstones[t].(name := name)], order, generation)
  {
    assert tombstones[t := tombstones[t].(name := name)].Keys == tombstones.Keys;
  }

  lemma LaterGeneration(tombstones: map<Tag, Tombstone>, order: seq<Tag>, generation: nat)
    requires Ordered(tombstones, order, generation)
    ensures Ordered(tombstones, order, generation + 1)
  {
  }

  /** Tombstones are in the order of their generations, so the stable ones come first. */
  lemma {:induction false} StablePrefix(tombstones: map<Tag, Tombstone>, order: seq<Tag>, generation: nat, stable: nat) returns (k: nat)
    requires Ordered(tombstones, order, generation)
    ensures k <= |order|
    ensures forall i :: 0 <= i < |order| ==> order[i] in tombstones && (tombstones[order[i]].generation <= stable <==> i < k)
  {
    forall i | 0 <= i < |order| ensures order[i] in tombstones { assert order[i] in Tags(order); }
    k := 0;
    while k < |order| && tombstones[order[k]].generation <= stable
      invariant k <= |order|
      invariant forall i :: 0 <= i < k ==> tombstones[order[i]].generation <= stable
    {
      k := k + 1;
    }
  }

  /** The tombstones left once those up to the stable generation are gone. */
  function Younger(tombstones: map<Tag, Tombstone>, stable: nat): map<Tag, Tombstone>
  {
    map t | t in tombstones && tombstones[t].generation > stable :: tombstones[t]
  }

  lemma YoungerTags(tombstones: map<Tag, Tombstone>, order: seq<Tag>, stable: nat, k: nat)
    requires Tags(order) == tombstones.Keys && k <= |order|
    requires forall i :: 0 <= i < |order| ==> order[i] in tombstones && (tombstones[order[i]].generation <= stable <==> i < k)
    ensures Tags(order[k..]) == Younger(tombstones, stable).Keys
  {
    var rest := order[k..];
    forall t ensures t in Tags(rest) <==> t in Younger(tombstones, stable) {
      if t in Younger(tombstones, stable) {
        assert t in Tags(order);
        var i :| 0 <= i < |order| && order[i] == t;
        assert rest[i - k] == t;
      }
      if t in rest {
        var i :| 0 <= i < |rest| && rest[i] == t;
        assert order[i + k] == t;
      }
    }
  }

  lemma YoungerOrdered(tombstones: map<Tag, Tombstone>, order: seq<Tag>, generation: nat, stable: nat, k: nat)
    requires Ordered(tombstones, order, generation) && k <= |order|
    requires forall i :: 0 <= i < |order| ==> order[i] in tombstones && (tombstones[order[i]].generation <= stable <==> i < k)
    ensures Ordered(Younger(tombstones, stable), order[k..], generation)
  {
    YoungerTags(tombstones, order, stable, k);
    hide Tags;
    assert forall i :: 0 <= i < |order[k..]| ==> order[k..][i] == order[i + k];
  }

  /** What the merge of `e` records against the winner before it: the newer write wins,
      then the higher node, then the earlier registration. */
  function Conflict(e: Entry, prior: Entry): (r: NameConflict)
    ensures r.name == r.winner.name && ((r.winner == e && r.loser == prior) || (r.winner == prior && r.loser == e))
    ensures r.loser.timestamp < r.winner.timestamp
         || (r.loser.timestamp == r.winner.timestamp && r.loser.node <= r.winner.node)
    ensures e.timestamp == prior.timestamp && e.node == prior.node ==> r.winner == prior
  {
    if Below(prior, e) then NameConflict(e.name, e, prior) else NameConflict(prior.name, prior, e)
  }

  /** The recorded winner is what `lookup` resolves to afterwards if and only if
      the keys differ: on a tie the merge records the earlier registration while
      `lookup` returns the later one. */
  lemma RecordedWinnerIff(es: seq<Entry>, e: Entry)
    requires Winner(es).Some? && Winner(es).value != e
    ensures Winner(es + [e]) == Some(Conflict(e, Winner(es).value).winner) <==> !SameKey(e, Winner(es).value)
  {
    assert (es + [e])[..|es|] == es;
  }

  /** The entries left after removing `t` everywhere. */
  ghost predicate Reaped(before: Entries, after: Entries, t: Tag)
  {
    && (forall n :: n in after <==> n in before && Keep(before[n], t) != [])
    && (forall n :: n in after ==> after[n] == Keep(before[n], t))
  }

  lemma ReapedLive(before: Entries, after: Entries, t: Tag)
    requires WellFiled(before) && Reaped(before, after, t)
    ensures WellFiled(after) && LiveIn(after) == set e | e in LiveIn(before) && e.tag != t
  {
    forall e | e in LiveIn(before) && e.tag != t ensures e in LiveIn(after) {
      var n :| n in before && e in before[n];
      assert e in Keep(before[n], t);
      assert n in after && e in after[n];
    }
    forall e | e in LiveIn(after) ensures e in LiveIn(before) && e.tag != t {
      var n :| n in after && e in after[n];
      assert n in before && e in before[n];
    }
  }

  lemma FiledUnderName(entries: Entries, e: Entry)
    requires WellFiled(entries)
    ensures e in LiveIn(entries) <==> e.name in entries && e in entries[e.name]
  {
  }

  lemma FileEntry(entries: Entries, e: Entry)
    requires WellFiled(entries) && forall f :: f in LiveIn(entries) ==> f.tag != e.tag
    ensures var es := if e.name in entries then entries[e.name] else [];
            var after := entries[e.name := es + [e]];
            WellFiled(after) && LiveIn(after) == LiveIn(entries) + {e}
  {
    var es := if e.name in entries then entries[e.name] else [];
    var after := entries[e.name := es + [e]];
    forall f ensures f in LiveIn(after) <==> f in LiveIn(entries) || f == e {
      if f in LiveIn(entries) {
        var n :| n in entries && f in entries[n];
        assert n in after && f in after[n];
      }
      if f == e { assert e.name in after && e in after[e.name]; }
      if f in LiveIn(after) {
        var n :| n in after && f in after[n];
        if n != e.name { assert n in entries && f in entries[n]; }
      }
    }
  }

  lemma TagPresent(entries: Entries, e: Entry)
    requires WellFiled(entries) && forall f :: f in LiveIn(entries) && f.tag == e.tag ==> f == e
    requires e.name in entries && exists x :: x in entries[e.name] && x.tag == e.tag
    ensures LiveIn(entries) + {e} == LiveIn(entries)
  {
    var x :| x in entries[e.name] && x.tag == e.tag;
    assert x in LiveIn(entries);
  }

  lemma TagAbsent(entries: Entries, e: Entry)
    requires WellFiled(entries) && forall f :: f in LiveIn(entries) && f.tag == e.tag ==> f == e
    requires e.name in entries ==> forall x :: x in entries[e.name] ==> x.tag != e.tag
    ensures forall f :: f in LiveIn(entries) ==> f.tag != e.tag
  {
    forall f | f in LiveIn(entries) ensures f.tag != e.tag { FiledUnderName(entries, f); }
  }

  lemma BuryAdds(dead: seq<Tag>, t: Tag, cap: nat, x: Tag)
    ensures x in Bury(dead, t, cap) ==> x in dead || x == t
  {
  }

  class Registry {
    const cap: nat
    var entries: Entries
    var tombstones: map<Tag, Tombstone>
    var generation: nat
    var conflicts: seq<NameConflict>
    ghost var order: seq<Tag>

    ghost predicate Valid()
      reads this
    {
      && WellFiled(entries)
      && Ordered(tombstones, order, generation)
      && |order| <= cap
      && forall e :: e in LiveIn(entries) ==> e.tag !in tombstones
    }

    ghost function View(): Replica
      reads this
    {
      Replica(LiveIn(entries), order)
    }

    constructor (cap: nat)
      ensures Valid() && View() == EMPTY && this.cap == cap && conflicts == []
    {
      this.cap := cap;
      entries, tombstones, generation, conflicts, order := map[], map[], 0, [], [];
    }

    /** Evict the oldest tombstones until the cap holds. */
    method EnforceTombstoneCap()
      requires Ordered(tombstones, order, generation)
      modifies this`tombstones, this`order
      ensures Ordered(tombstones, order, generation)
      ensures order == if |old(order)| > cap then old(order)[|old(order)| - cap..] else old(order)
      ensures forall t :: t in tombstones ==> t in old(tombstones) && tombstones[t] == old(tombstones)[t]
    {
      hide Ordered;
      OrderSize(tombstones, order, generation);
      ghost var all := order;
      while |tombstones| > cap
        invariant Ordered(tombstones, order, generation) && |tombstones| == |order| <= |all|
        invariant order == all[|all| - |order|..]
        invariant |order| < |all| ==> |order| >= cap
        invariant forall t :: t in tombstones ==> t in old(tombstones) && tombstones[t] == old(tombstones)[t]
        decreases |tombstones|
      {
        var victim := OldestTombstone();
        LeastIsOldest(tombstones, order, generation, victim);
        EvictOldest(tombstones, order, generation);
        tombstones := tombstones - {victim};
        order := order[1..];
        OrderSize(tombstones, order, generation);
      }
    }

    method OldestTombstone() returns (victim: Tag)
      requires |tombstones| > 0
      ensures victim in tombstones
      ensures forall t :: t in tombstones ==> tombstones[victim].generation <= tombstones[t].generation
    {
      var rest := tombstones.Keys;
      assert rest != {};
      victim :| victim in rest;
      rest := rest - {victim};
      while rest != {}
        invariant rest <= tombstones.Keys && victim in tombstones
        invariant forall t :: t in tombstones && t !in rest ==> tombstones[victim].generation <= tombstones[t].generation
        decreases rest
      {
        var t :| t in rest;
        if tombstones[t].generation < tombstones[victim].generation { victim := t; }
        rest := rest - {t};
      }
    }

    /** Bury `tag`; a tombstone learned without a name gains one. */
    method BuryTag(tag: Tag, name: string)
      requires Ordered(tombstones, order, generation) && |order| <= cap
      modifies this`tombstones, this`order, this`generation
      ensures Ordered(tombstones, order, generation) && |order| <= cap
      ensures order == Bury(old(order), tag, cap)
      ensures forall t :: t in tombstones && t != tag ==> t in old(tombstones) && tombstones[t] == old(tombstones)[t]
      ensures tag in tombstones ==>
                tombstones[tag] ==
                if tag !in old(tombstones) then Tombstone(name, generation)
                else if old(tombstones)[tag].name == "" then old(tombstones)[tag].(name := name)
                else old(tombstones)[tag]
    {
      hide Ordered;
      LaterGeneration(tombstones, order, generation);
      OrderIsKeys(tombstones, order, generation, tag);
      generation := generation + 1;
      if tag in tombstones {
        if tombstones[tag].name == "" && name != "" {
          RenameKeeps(tombstones, order, generation, tag, name);
          tombstones := tombstones[tag := tombstones[tag].(name := name)];
        }
      } else {
        AddNewest(tombstones, order, generation - 1, tag, name);
        tombstones := tombstones[tag := Tombstone(name, generation)];
        order := order + [tag];
      }
      EnforceTombstoneCap();
    }

    /** Forget the tombstones up to a generation known to have reached everyone. */
    method ExpireTombstones(stable: nat) returns (count: nat)
      requires Valid()
      modifies this`tombstones, this`order
      ensures Valid() && count <= |old(order)| && View() == Expired(old(View()), count)
      ensures forall t :: t in tombstones <==> t in old(tombstones) && old(tombstones)[t].generation > stable
    {
      hide Ordered, WellFiled, LiveIn;
      ghost var k := StablePrefix(tombstones, order, generation, stable);
      YoungerOrdered(tombstones, order, generation, stable, k);
      OrderSize(tombstones, order, generation);
      var before := |tombstones|;
      tombstones := Younger(tombstones, stable);
      order := order[k..];
      OrderSize(tombstones, order, generation);
      count := before - |tombstones|;
    }

    /** Remove the live entry of `tag`, whatever name it is filed under. */
    method ReapTag(tag: Tag) returns (removed: bool)
      requires WellFiled(entries)
      modifies this`entries
      ensures WellFiled(entries)
      ensures LiveIn(entries) == set e | e in LiveIn(old(entries)) && e.tag != tag
      ensures Reaped(old(entries), entries, tag)
      ensures removed <==> exists e :: e in LiveIn(old(entries)) && e.tag == tag
    {
      ghost var before := entries;
      var names := entries.Keys;
      removed := false;
      ghost var seen: set<string> := {};
      while names != {}
        invariant names !! seen && names + seen == before.Keys
        invariant forall n :: n in entries <==> n in names || (n in seen && Keep(before[n], tag) != [])
        invariant forall n :: n in names ==> entries[n] == before[n]
        invariant forall n :: n in seen && n in entries ==> entries[n] == Keep(before[n], tag)
        invariant removed <==> exists n, e :: n in seen && e in before[n] && e.tag == tag
        decreases names
      {
        var name :| name in names;
        var kept := Keep(entries[name], tag);
        KeepLength(entries[name], tag);
        if |kept| != |entries[name]| { removed := true; }
        entries := if kept == [] then entries - {name} else entries[name := kept];
        names := names - {name};
        seen := seen + {name};
      }
      assert Reaped(before, entries, tag);
      ReapedLive(before, entries, tag);
      assert removed ==> exists e :: e in LiveIn(before) && e.tag == tag by {
        if removed {
          ghost var n, e :| n in seen && e in before[n] && e.tag == tag;
          assert e in LiveIn(before);
        }
      }
    }

    /** The winning registration of a name, if any. */
    method Lookup(name: string) returns (r: Option<Entry>)
      requires Valid()
      ensures r == Resolved(entries, name)
      ensures r.Some? <==> exists e :: e in LiveIn(entries) && e.name == name
      ensures r.Some? ==> r.value in LiveIn(entries) && r.value.name == name
      ensures r.Some? ==> forall e :: e in LiveIn(entries) && e.name == name ==>
                e.timestamp < r.value.timestamp || (e.timestamp == r.value.timestamp && e.node <= r.value.node)
    {
      r := None;
      if name in entries {
        var es := entries[name];
        for i := 0 to |es|
          invariant r == Winner(es[..i])
        {
          assert es[..i + 1][..i] == es[..i];
          if r.None? || !Below(es[i], r.value) { r := Some(es[i]); }
        }
        assert es[..|es|] == es;
        WinnerIsHighest(es);
        assert r.value in LiveIn(entries);
      }
    }

    /** Register under a fresh tag. */
    method Register(name: string, pid: Pid, node: nat, timestamp: nat, tag: Tag)
      requires Valid() && tag !in tombstones && forall e :: e in LiveIn(entries) ==> e.tag != tag
      modifies this`entries
      ensures Valid() && View() == Merge(old(View()), Add(Entry(name, pid, tag, timestamp, node)), cap)
    {
      var e := Entry(name, pid, tag, timestamp, node);
      FileEntry(entries, e);
      assert tag !in Tags(order);
      entries := entries[name := (if name in entries then entries[name] else []) + [e]];
    }

    /** Merge an add. Tags are unique: an add never reuses another entry's tag. */
    method MergeAdd(e: Entry)
      requires Valid() && forall f :: f in LiveIn(entries) && f.tag == e.tag ==> f == e
      modifies this`entries, this`conflicts
      ensures Valid() && View() == Merge(old(View()), Add(e), cap)
      ensures conflicts == old(conflicts) + NewConflict(old(entries), old(tombstones), Add(e))
    {
      hide Ordered, LiveIn;
      OrderIsKeys(tombstones, order, generation, e.tag);
      if e.tag in tombstones { return; }
      var prior := Lookup(e.name);
      var es := if e.name in entries then entries[e.name] else [];
      if exists x :: x in es && x.tag == e.tag {
        TagPresent(entries, e);
        return;
      }
      TagAbsent(entries, e);
      FileEntry(entries, e);
      entries := entries[e.name := es + [e]];
      if prior.Some? && prior.value.pid != e.pid {
        conflicts := conflicts + [Conflict(e, prior.value)];
      }
    }

    method MergeRemove(name: string, tag: Tag)
      requires Valid()
      modifies this`entries, this`tombstones, this`order, this`generation
      ensures Valid() && View() == Merge(old(View()), Remove(name, tag), cap)
    {
      hide Ordered, Bury, WellFiled;
      ghost var dead := order;
      assert forall e :: e in LiveIn(entries) ==> e.tag !in order by {
        forall e | e in LiveIn(entries) ensures e.tag !in order { OrderIsKeys(tombstones, order, generation, e.tag); }
      }
      BuryTag(tag, name);
      var _ := ReapTag(tag);
      forall e | e in LiveIn(entries) ensures e.tag !in tombstones {
        BuryAdds(dead, tag, cap, e.tag);
        OrderIsKeys(tombstones, order, generation, e.tag);
      }
    }

    /** Merge one delta. */
    method MergeDelta(d: Delta)
      requires Valid()
      requires d.Add? ==> forall e :: e in LiveIn(entries) && e.tag == d.entry.tag ==> e == d.entry
      modifies this
      ensures Valid() && View() == Merge(old(View()), d, cap)
      ensures conflicts == old(conflicts) + NewConflict(old(entries), old(tombstones), d)
    {
      match d
      case Add(e) => MergeAdd(e);
      case Remove(name, tag) => MergeRemove(name, tag);
    }

    /** Merge deltas as they come in. */
    method MergeDeltas(ds: seq<Delta>)
      requires Valid()
      requires forall d :: d in ds && d.Add? ==>
                 (forall e :: e in LiveIn(entries) && e.tag == d.entry.tag ==> e == d.entry) &&
                 (forall f :: f in ds && f.Add? && f.entry.tag == d.entry.tag ==> f == d)
      modifies this
      ensures Valid() && View() == MergeAll(old(View()), ds, cap)
    {
      ghost var before := View();
      for i := 0 to |ds|
        invariant Valid() && View() == MergeAll(before, ds[..i], cap)
        invariant forall e :: e in LiveIn(entries) ==> e in before.live || Add(e) in ds
      {
        assert ds[..i + 1][..i] == ds[..i];
        assert ds[i] in ds;
        MergeDelta(ds[i]);
      }
      assert ds[..|ds|] == ds;
    }

    /** Unregister a name: bury all its tags. The returned deltas, merged into the
        registry as it was, have exactly the effect this call has locally. */
    method Unregister(name: string) returns (r: Option<seq<Delta>>)
      requires Valid()
      modifies this`entries, this`tombstones, this`order, this`generation
      ensures Valid()
      ensures r.None? <==> name !in old(entries)
      ensures r.None? ==> View() == old(View())
      ensures r.Some? ==> View() == MergeAll(old(View()), r.value, cap)
      ensures r.Some? ==> |r.value| == |old(entries)[name]|
      ensures r.Some? ==> forall i :: 0 <= i < |r.value| ==> r.value[i] == Remove(name, old(entries)[name][i].tag)
    {
      hide Ordered, WellFiled, Bury;
      if name !in entries { return None; }
      ghost var before, view := entries, View();
      var es := entries[name];
      entries := entries - {name};
      var ds := [];
      for i := 0 to |es|
        invariant Ordered(tombstones, order, generation) && |order| <= cap
        invariant entries == before - {name}
        invariant |ds| == i && forall k :: 0 <= k < i ==> ds[k] == Remove(name, es[k].tag)
        invariant order == MergeAll(view, ds, cap).dead
        invariant forall t :: t in order ==> t in view.dead || exists k :: 0 <= k < i && es[k].tag == t
      {
        ghost var dead := order;
        BuryTag(es[i].tag, name);
        forall t | t in order ensures t in view.dead || exists k :: 0 <= k < i + 1 && es[k].tag == t {
          BuryAdds(dead, es[i].tag, cap, t);
        }
        ds := ds + [Remove(name, es[i].tag)];
        assert ds[..i] == ds[..|ds| - 1];
        MergeAllStep(view, ds, cap);
      }
      UnfiledLive(before, name);
      MergeRemovesLive(view, name, es, ds, cap);
      assert LiveIn(entries) == MergeAll(view, ds, cap).live by {
        DropName(before, name, es);
      }
      forall e | e in LiveIn(entries) ensures e.tag !in tombstones {
        DropNameTags(before, name, es, e);
        OrderIsKeys(tombstones, order, generation, e.tag);
        OrderIsKeys(old(tombstones), old(order), old(generation), e.tag);
      }
      r := Some(ds);
    }

    /** All current state as deltas, for a full sync. */
    method GenerateDeltas() returns (ds: seq<Delta>)
      requires Valid()
      ensures FullSync(View(), ds)
      ensures forall d :: d in ds && d.Remove? ==> d.tag in tombstones && d.name == tombstones[d.tag].name
    {
      hide Ordered, WellFiled;
      ds := [];
      var names := entries.Keys;
      ghost var done: set<string> := {};
      while names != {}
        invariant names !! done && names + done == entries.Keys
        invariant Removed(ds) == {} && forall d :: d in ds ==> d.Add?
        invariant Added(ds) == set n, e | n in done && e in entries[n] :: e
        decreases names
      {
        var name :| name in names;
        var es := entries[name];
        ghost var start := Added(ds);
        for i := 0 to |es|
          invariant Removed(ds) == {} && forall d :: d in ds ==> d.Add?
          invariant Added(ds) == start + set e | e in es[..i]
        {
          OutcomeStep(EMPTY, ds, Add(es[i]));
          ds := ds + [Add(es[i])];
        }
        assert es[..|es|] == es;
        names := names - {name};
        done := done + {name};
      }
      assert Added(ds) == LiveIn(entries);
      var tags := tombstones.Keys;
      while tags != {}
        invariant tags <= tombstones.Keys
        invariant Removed(ds) == tombstones.Keys - tags
        invariant forall d :: d in ds && d.Remove? ==> d.tag in tombstones && d.name == tombstones[d.tag].name
        invariant Added(ds) == LiveIn(entries)
        decreases tags
      {
        var t :| t in tags;
        OutcomeStep(EMPTY, ds, Remove(tombstones[t].name, t));
        ds := ds + [Remove(tombstones[t].name, t)];
        tags := tags - {t};
      }
      assert Tags(order) == tombstones.Keys by {
        forall t ensures t in Tags(order) <==> t in tombstones { OrderIsKeys(tombstones, order, generation, t); }
      }
    }
  }

  /** What a lookup of `name` resolves to. */
  function Resolved(entries: Entries, name: string): Option<Entry>
  {
    if name in entries then Winner(entries[name]) else None
  }

  /** Registries with the same live entries resolve every name to the same key, and to
      the same entry when the keys under the name are distinct. */
  lemma SameLiveSameLookup(a: Entries, b: Entries, name: string)
    requires WellFiled(a) && WellFiled(b) && LiveIn(a) == LiveIn(b)
    ensures AgreeOn(a, b, name)
  {
    var es, fs := if name in a then a[name] else [], if name in b then b[name] else [];
    forall e ensures e in es <==> e in fs {
      if e in es { assert e in LiveIn(a); FiledUnderName(b, e); }
      if e in fs { assert e in LiveIn(b); FiledUnderName(a, e); }
    }
    LookupAgrees(es, fs);
    WinnerIsHighest(es);
    WinnerIsHighest(fs);
    if forall x, y :: x in LiveIn(a) && y in LiveIn(a) && x.name == y.name == name && SameKey(x, y) ==> x == y {
      forall x, y | x in es && y in es && SameKey(x, y) ensures x == y { assert x in LiveIn(a) && y in LiveIn(a); }
    }
  }

  ghost predicate AgreeOn(a: Entries, b: Entries, name: string)
  {
    var x, y := Resolved(a, name), Resolved(b, name);
    && x.Some? == y.Some?
    && (x.Some? ==> SameKey(x.value, y.value))
    && ((forall e, f :: e in LiveIn(a) && f in LiveIn(a) && e.name == f.name == name && SameKey(e, f) ==> e == f) ==> x == y)
  }

  lemma SyncIsUnique(entries: Entries, view: Replica, other: Entries, ds: seq<Delta>)
    requires FullSync(view, ds) && view.live == LiveIn(other) && WellFiled(other)
    requires forall e, f :: e in LiveIn(entries) && f in LiveIn(other) && e.tag == f.tag ==> e == f
    ensures forall d :: d in ds && d.Add? ==>
              (forall e :: e in LiveIn(entries) && e.tag == d.entry.tag ==> e == d.entry) &&
              (forall f :: f in ds && f.Add? && f.entry.tag == d.entry.tag ==> f == d)
  {
    forall d | d in ds && d.Add? ensures d.entry in LiveIn(other) { assert d.entry in Added(ds); }
  }

  /** Two registries exchange full syncs. Afterwards both know the join of what they knew,
      and a lookup of any name agrees on (timestamp, node). */
  method TwoWaySync(a: Registry, b: Registry)
    requires a != b && a.Valid() && b.Valid() && a.cap == b.cap
    requires |Tags(a.order) + Tags(b.order)| <= a.cap
    requires forall e, f :: e in LiveIn(a.entries) && f in LiveIn(b.entries) && e.tag == f.tag ==> e == f
    modifies a, b
    ensures a.Valid() && b.Valid()
    ensures Known(a.View()) == Known(b.View()) == Join(old(Known(a.View())), old(Known(b.View())))
    ensures forall name :: AgreeOn(a.entries, b.entries, name)
  {
    hide Ordered, Distinct, Join, AgreeOn;
    ghost var va, vb := a.View(), b.View();
    ViewSound(a);
    ViewSound(b);
    var fromA := a.GenerateDeltas();
    var fromB := b.GenerateDeltas();
    SyncIsUnique(a.entries, vb, b.entries, fromB);
    SyncIsUnique(b.entries, va, a.entries, fromA);
    a.MergeDeltas(fromB);
    b.MergeDeltas(fromA);
    FullSyncIsJoin(va, vb, fromB, a.cap);
    TwoWaySyncAgrees(va, vb, fromA, fromB, a.cap);
    forall name ensures AgreeOn(a.entries, b.entries, name) { SameLiveSameLookup(a.entries, b.entries, name); }
  }

  lemma ViewSound(r: Registry)
    requires r.Valid()
    ensures Sound(r.View())
  {
    forall e | e in LiveIn(r.entries) ensures e.tag !in r.order { OrderIsKeys(r.tombstones, r.order, r.generation, e.tag); }
  }

  lemma MergeAllStep(r: Replica, ds: seq<Delta>, cap: nat)
    requires ds != []
    ensures MergeAll(r, ds, cap) == Merge(MergeAll(r, ds[..|ds| - 1], cap), ds[|ds| - 1], cap)
  {
  }

  /** Merging removes takes out exactly the entries with those tags. */
  lemma {:induction false} MergeRemovesLive(r: Replica, name: string, es: seq<Entry>, ds: seq<Delta>, cap: nat)
    requires |ds| == |es| && forall k :: 0 <= k < |ds| ==> ds[k] == Remove(name, es[k].tag)
    ensures MergeAll(r, ds, cap).live == set e | e in r.live && forall k :: 0 <= k < |es| ==> es[k].tag != e.tag
    decreases |ds|
  {
    if ds != [] {
      MergeRemovesLive(r, name, es[..|es| - 1], ds[..|ds| - 1], cap);
    }
  }

  lemma UnfiledLive(entries: Entries, name: string)
    requires WellFiled(entries)
    ensures WellFiled(entries - {name}) && LiveIn(entries - {name}) <= LiveIn(entries)
  {
    var rest := entries - {name};
    forall e | e in LiveIn(rest) ensures e in LiveIn(entries) {
      var n :| n in rest && e in rest[n];
      assert n in entries && e in entries[n];
    }
  }

  lemma DropNameTags(entries: Entries, name: string, es: seq<Entry>, e: Entry)
    requires WellFiled(entries) && name in entries && entries[name] == es && e in LiveIn(entries - {name})
    ensures e in LiveIn(entries) && forall k :: 0 <= k < |es| ==> es[k].tag != e.tag
  {
    UnfiledLive(entries, name);
    FiledUnderName(entries - {name}, e);
    forall k | 0 <= k < |es| ensures es[k].tag != e.tag {
      assert es[k] in entries[name];
      assert es[k] in LiveIn(entries);
    }
  }

  /** Unfiling a name takes out exactly the entries with its tags. */
  lemma DropName(entries: Entries, name: string, es: seq<Entry>)
    requires WellFiled(entries) && name in entries && entries[name] == es
    ensures LiveIn(entries - {name}) ==
            set e | e in LiveIn(entries) && forall k :: 0 <= k < |es| ==> es[k].tag != e.tag
  {
    var rest := entries - {name};
    forall e | e in LiveIn(rest)
      ensures e in LiveIn(entries) && forall k :: 0 <= k < |es| ==> es[k].tag != e.tag
    { DropNameTags(entries, name, es, e); }
    forall e | e in LiveIn(entries) && forall k :: 0 <= k < |es| ==> es[k].tag != e.tag
      ensures e in LiveIn(rest)
    {
      FiledUnderName(entries, e);
      if e.name == name { assert false; }
      assert e.name in rest && e in rest[e.name];
    }
  }

  /** The conflict an add gives rise to: it is new, and another process already
      held the name. */
  ghost function NewConflict(entries: Entries, tombstones: map<Tag, Tombstone>, d: Delta): seq<NameConflict>
  {
    if d.Remove? || d.entry.tag in tombstones || d.entry.name !in entries then []
    else
      var w := Winner(entries[d.entry.name]);
      if w.None? || w.value.pid == d.entry.pid || (exists x :: x in entries[d.entry.name] && x.tag == d.entry.tag) then []
      else [Conflict(d.entry, w.value)]
  }

  /** Merging an add records a conflict if and only if the add takes effect under its name
      and another process resolved the name before; then it is recorded once, between that
      registration and the new one. */
  lemma ConflictRecordedIff(entries: Entries, tombstones: map<Tag, Tombstone>, e: Entry)
    requires WellFiled(entries)
    ensures var w := Resolved(entries, e.name); var found := NewConflict(entries, tombstones, Add(e));
            && |found| <= 1
            && (|found| == 1 <==>
                  && e.tag !in tombstones && w.Some? && w.value.pid != e.pid
                  && forall f :: f in LiveIn(entries) && f.name == e.name ==> f.tag != e.tag)
            && (|found| == 1 ==> {found[0].winner, found[0].loser} == {e, w.value})
  {
    if e.name in entries {
      WinnerIsHighest(entries[e.name]);
      forall f ensures f in LiveIn(entries) && f.name == e.name <==> f in entries[e.name] { FiledUnderName(entries, f); }
    } else {
      forall f | f in LiveIn(entries) ensures f.name != e.name { FiledUnderName(entries, f); }
    }
  }
}

/** The bounded queue of updates waiting to be piggybacked. Which of several
    entries with equal budgets is evicted or sent first is left open, as it
    depends on the order of a hash map. */
module SwimGossip {
  import opened Values
  import opened SwimMembers

  datatype Pending = Pending(update: Update, left: nat)

  datatype Queue = Queue(pending: map<NodeId, Pending>, maxEntries: nat, budget: nat)

  const DEFAULT_MAX_ENTRIES: nat := 1024
  const DEFAULT_BUDGET: nat := 4
  const WORD_BITS: nat := 64

  function Precedence(u: Update): nat
  {
    match u
    case AliveUpdate(_, _, _, _) => 0
    case SuspectUpdate(_, _, _) => 1
    case DeadUpdate(_, _, _) => 2
    case LeaveUpdate(_, _, _) => 2
  }

  predicate Supersedes(u: Update, v: Update)
  {
    u.incarnation > v.incarnation || (u.incarnation == v.incarnation && Precedence(u) >= Precedence(v))
  }

  /** An entry that no other entry has a smaller budget than. */
  predicate LeastLeft(pending: map<NodeId, Pending>, id: NodeId)
  {
    id in pending && forall x :: x in pending ==> pending[id].left <= pending[x].left
  }

  predicate Evicted(pending: map<NodeId, Pending>, rest: map<NodeId, Pending>)
  {
    exists id :: id in pending && LeastLeft(pending, id) && rest == pending - {id}
  }

  ghost predicate Added(q: Queue, u: Update, q': Queue)
  {
    && q'.maxEntries == q.maxEntries && q'.budget == q.budget
    && if u.node in q.pending && !Supersedes(u, q.pending[u.node].update) then q'.pending == q.pending
       else if u.node in q.pending || |q.pending| < q.maxEntries then
         q'.pending == q.pending[u.node := Pending(u, q.budget)]
       else
         exists rest :: MadeRoom(q.pending, rest) && q'.pending == rest[u.node := Pending(u, q.budget)]
  }

  /** One entry is evicted, if there is any. */
  ghost predicate MadeRoom(pending: map<NodeId, Pending>, rest: map<NodeId, Pending>)
  {
    if pending == map[] then rest == pending else Evicted(pending, rest)
  }

  ghost predicate AddedAll(q: Queue, us: seq<Update>, q': Queue)
  {
    exists qs :: AddedVia(q, us, q', qs)
  }

  /** The updates go in one by one, by way of the queues `qs`. */
  ghost predicate AddedVia(q: Queue, us: seq<Update>, q': Queue, qs: seq<Queue>)
  {
    && |qs| == |us| + 1 && qs[0] == q && qs[|us|] == q'
    && forall i :: 0 <= i < |us| ==> Added(qs[i], us[i], qs[i + 1])
  }

  /** The entries picked for sending: as many as allowed, highest budgets first. */
  predicate Picked(q: Queue, max: nat, ids: seq<NodeId>)
  {
    && |ids| == Min(max, |q.pending|)
    && (forall k :: 0 <= k < |ids| ==> ids[k] in q.pending)
    && (forall j, k :: 0 <= j < k < |ids| ==> ids[j] != ids[k])
    && (forall j, k :: 0 <= j < k < |ids| ==> q.pending[ids[j]].left >= q.pending[ids[k]].left)
    && (forall k, x :: 0 <= k < |ids| && x in q.pending && x !in ids ==> q.pending[ids[k]].left >= q.pending[x].left)
  }

  function Sent(pending: map<NodeId, Pending>, id: NodeId): map<NodeId, Pending>
    requires id in pending
  {
    var left := SaturatingSub(pending[id].left, 1);
    if left == 0 then pending - {id} else pending[id := pending[id].(left := left)]
  }

  function SentAll(pending: map<NodeId, Pending>, ids: seq<NodeId>): (r: map<NodeId, Pending>)
    requires forall k :: 0 <= k < |ids| ==> ids[k] in pending
    requires forall j, k :: 0 <= j < k < |ids| ==> ids[j] != ids[k]
    ensures forall x :: x in pending && x !in ids ==> x in r && r[x] == pending[x]
    ensures r.Keys <= pending.Keys
  {
    if ids == [] then pending else
      var n := |ids| - 1;
      var mid := SentAll(pending, ids[..n]);
      assert ids[n] !in ids[..n];
      Sent(mid, ids[n])
  }

  ghost predicate Drained(q: Queue, max: nat, out: seq<Update>, q': Queue)
  {
    exists ids :: DrainedBy(q, max, ids, out, q')
  }

  ghost predicate DrainedBy(q: Queue, max: nat, ids: seq<NodeId>, out: seq<Update>, q': Queue)
  {
    && Picked(q, max, ids)
    && out == seq(|ids|, k requires 0 <= k < |ids| => q.pending[ids[k]].update)
    && q' == q.(pending := SentAll(q.pending, ids))
  }

  // ---------------------------------------------------------------------------
  // What every run keeps
  // ---------------------------------------------------------------------------

  ghost predicate Sound(q: Queue)
  {
    && 1 <= q.maxEntries && 1 <= q.budget
    && |q.pending| <= q.maxEntries
    && forall id :: id in q.pending ==> q.pending[id].update.node == id && 1 <= q.pending[id].left <= q.budget
  }

  lemma MadeRoomSize(pending: map<NodeId, Pending>, rest: map<NodeId, Pending>, max: nat)
    requires MadeRoom(pending, rest) && 1 <= max && |pending| <= max
    ensures |rest| < max && forall x :: x in rest ==> x in pending && rest[x] == pending[x]
  {
    if pending != map[] {
      var id :| id in pending && LeastLeft(pending, id) && rest == pending - {id};
      assert rest.Keys == pending.Keys - {id};
    }
  }

  lemma InsertSize(pending: map<NodeId, Pending>, id: NodeId, p: Pending)
    ensures |pending[id := p]| == |pending| + if id in pending then 0 else 1
  {
    assert pending[id := p].Keys == pending.Keys + {id};
  }

  lemma AddKeepsSound(q: Queue, u: Update, q': Queue)
    requires Sound(q) && Added(q, u, q')
    ensures Sound(q')
  {
    if u.node in q.pending || |q.pending| < q.maxEntries {
      InsertSize(q.pending, u.node, Pending(u, q.budget));
    } else {
      var rest :| MadeRoom(q.pending, rest) && q'.pending == rest[u.node := Pending(u, q.budget)];
      MadeRoomSize(q.pending, rest, q.maxEntries);
      InsertSize(rest, u.node, Pending(u, q.budget));
    }
  }

  lemma {:induction false} SentAllSound(pending: map<NodeId, Pending>, ids: seq<NodeId>)
    requires forall k :: 0 <= k < |ids| ==> ids[k] in pending
    requires forall j, k :: 0 <= j < k < |ids| ==> ids[j] != ids[k]
    requires forall x :: x in pending ==> pending[x].left >= 1
    ensures var r := SentAll(pending, ids);
            forall x :: x in r ==> 1 <= r[x].left <= pending[x].left && r[x].update == pending[x].update
    decreases |ids|
  {
    if ids != [] {
      SentAllSound(pending, ids[..|ids| - 1]);
    }
  }

  lemma DrainKeepsSound(q: Queue, max: nat, out: seq<Update>, q': Queue)
    requires Sound(q) && Drained(q, max, out, q')
    ensures Sound(q')
  {
    var ids :| DrainedBy(q, max, ids, out, q');
    SentAllSound(q.pending, ids);
    SubsetSize(q'.pending.Keys, q.pending.Keys);
  }

  lemma {:induction false} SubsetSize(a: set<NodeId>, b: set<NodeId>)
    requires a <= b
    ensures |a| <= |b|
    decreases |a|
  {
    if x :| x in a {
      SubsetSize(a - {x}, b - {x});
    }
  }

  // ---------------------------------------------------------------------------
  // Budgets are conserved
  // ---------------------------------------------------------------------------

  /** How many sends the queue still owes. */
  ghost function Total(pending: map<NodeId, Pending>): nat
    decreases |pending|
  {
    if pending == map[] then 0 else
      var id :| id in pending;
      assert |pending - {id}| < |pending| by { assert (pending - {id}).Keys == pending.Keys - {id}; }
      pending[id].left + Total(pending - {id})
  }

  lemma {:induction false} TotalWithout(pending: map<NodeId, Pending>, id: NodeId)
    requires id in pending
    ensures Total(pending) == pending[id].left + Total(pending - {id})
    decreases |pending|
  {
    var x :| x in pending && Total(pending) == pending[x].left + Total(pending - {x});
    if x != id {
      assert (pending - {x}).Keys == pending.Keys - {x};
      TotalWithout(pending - {x}, id);
      assert pending - {x} - {id} == pending - {id} - {x};
      assert (pending - {id}).Keys == pending.Keys - {id};
      TotalWithout(pending - {id}, x);
    }
  }

  lemma TotalSent(pending: map<NodeId, Pending>, id: NodeId)
    requires id in pending && pending[id].left >= 1
    ensures Total(Sent(pending, id)) == Total(pending) - 1
  {
    TotalWithout(pending, id);
    if pending[id].left > 1 {
      var p' := pending[id := pending[id].(left := pending[id].left - 1)];
      assert p' - {id} == pending - {id};
      TotalWithout(p', id);
    }
  }

  lemma {:induction false} TotalSentAll(pending: map<NodeId, Pending>, ids: seq<NodeId>)
    requires forall k :: 0 <= k < |ids| ==> ids[k] in pending
    requires forall j, k :: 0 <= j < k < |ids| ==> ids[j] != ids[k]
    requires forall x :: x in pending ==> pending[x].left >= 1
    ensures Total(SentAll(pending, ids)) == Total(pending) - |ids|
    decreases |ids|
  {
    if ids != [] {
      var n := |ids| - 1;
      TotalSentAll(pending, ids[..n]);
      assert ids[n] !in ids[..n];
      TotalSent(SentAll(pending, ids[..n]), ids[n]);
    }
  }

  /** What was sent are the pending updates of the picked nodes. */
  lemma SentAreThePicked(q: Queue, max: nat, ids: seq<NodeId>, out: seq<Update>, q': Queue)
    requires Sound(q) && DrainedBy(q, max, ids, out, q')
    ensures forall u :: u in out ==> u.node in ids && q.pending[u.node].update == u
    ensures forall x :: x in ids ==> x in q.pending && q.pending[x].update in out
  {
    hide SentAll;
    forall u | u in out ensures u.node in ids && q.pending[u.node].update == u {
      var k :| 0 <= k < |out| && out[k] == u;
      assert ids[k] in q.pending;
    }
    forall x | x in ids ensures x in q.pending && q.pending[x].update in out {
      var k :| 0 <= k < |ids| && ids[k] == x;
      assert out[k] == q.pending[x].update;
    }
  }

  /** A drain spends one send per update it returns, sends as many as it may, and
      sends those with the highest budgets. */
  lemma DrainSpendsBudget(q: Queue, max: nat, out: seq<Update>, q': Queue)
    requires Sound(q) && Drained(q, max, out, q')
    ensures Total(q.pending) - Total(q'.pending) == |out| == Min(max, |q.pending|)
    ensures forall u :: u in out ==> u.node in q.pending && q.pending[u.node].update == u
    ensures forall u, x :: u in out && x in q.pending && q.pending[x].update !in out ==>
              q.pending[u.node].left >= q.pending[x].left
  {
    hide SentAll, Total;
    var ids :| DrainedBy(q, max, ids, out, q');
    TotalSentAll(q.pending, ids);
    SentAreThePicked(q, max, ids, out, q');
    forall u, x | u in out && x in q.pending && q.pending[x].update !in out
      ensures q.pending[u.node].left >= q.pending[x].left
    {
      var k :| 0 <= k < |ids| && ids[k] == u.node;
    }
  }

  // ---------------------------------------------------------------------------
  // Runs
  // ---------------------------------------------------------------------------

  datatype Op = Add(update: Update) | Drain(max: nat)

  ghost predicate Step(q: Queue, op: Op, q': Queue)
  {
    match op
    case Add(u) => Added(q, u, q')
    case Drain(max) => exists out :: Drained(q, max, out, q')
  }

  ghost predicate IsRun(qs: seq<Queue>, ops: seq<Op>)
  {
    && |qs| == |ops| + 1 && Sound(qs[0]) && qs[0].pending == map[]
    && forall i :: 0 <= i < |ops| ==> Step(qs[i], ops[i], qs[i + 1])
  }

  lemma StepKeepsSound(q: Queue, op: Op, q': Queue)
    requires Sound(q) && Step(q, op, q')
    ensures Sound(q') && q'.maxEntries == q.maxEntries && q'.budget == q.budget
  {
    match op
    case Add(u) => AddKeepsSound(q, u, q');
    case Drain(max) =>
      var out :| Drained(q, max, out, q');
      DrainKeepsSound(q, max, out, q');
      var ids :| DrainedBy(q, max, ids, out, q');
  }

  /** In every run the queue is bounded, with one entry per node and budgets in range. */
  lemma {:induction false} AlwaysSound(qs: seq<Queue>, ops: seq<Op>, i: nat)
    requires IsRun(qs, ops) && i <= |ops|
    ensures Sound(qs[i]) && qs[i].maxEntries == qs[0].maxEntries && qs[i].budget == qs[0].budget
    decreases i
  {
    hide Sound, Added, Drained;
    if i > 0 {
      AlwaysSound(qs, ops, i - 1);
      assert Step(qs[i - 1], ops[i - 1], qs[i]);
      StepKeepsSound(qs[i - 1], ops[i - 1], qs[i]);
    }
  }

  /** While a node stays in the queue, its update only gives way to one that
      supersedes it. */
  lemma StepSupersedes(q: Queue, op: Op, q': Queue, id: NodeId)
    requires Sound(q) && Step(q, op, q') && id in q.pending && id in q'.pending
    ensures AtLeast(q'.pending[id].update, q.pending[id].update)
    ensures q'.pending[id].update == q.pending[id].update || op == Add(q'.pending[id].update)
  {
    match op
    case Add(u) =>
      if u.node !in q.pending && |q.pending| >= q.maxEntries {
        var rest :| MadeRoom(q.pending, rest) && q'.pending == rest[u.node := Pending(u, q.budget)];
        MadeRoomSize(q.pending, rest, q.maxEntries);
      }
    case Drain(max) =>
      var out :| Drained(q, max, out, q');
      var ids :| DrainedBy(q, max, ids, out, q');
      SentAllSound(q.pending, ids);
  }

  /** `u` is at least as recent as `v`: of a higher incarnation, or of the same one and
      not milder, where Alive is milder than Suspect and that than Dead or Leave. */
  ghost predicate AtLeast(u: Update, v: Update)
  {
    || u.incarnation > v.incarnation
    || (u.incarnation == v.incarnation && (v.AliveUpdate? || !u.AliveUpdate?) && (v.AliveUpdate? || v.SuspectUpdate? || !u.SuspectUpdate?))
  }

  /** An added update is superseded by what is then pending for its node: itself with a
      full budget, unless something more recent was pending, which stays as it is. */
  lemma AddSupersedes(q: Queue, u: Update, q': Queue)
    requires Added(q, u, q')
    ensures u.node in q'.pending && AtLeast(q'.pending[u.node].update, u)
    ensures u.node in q.pending && !AtLeast(u, q.pending[u.node].update) ==> q'.pending == q.pending
    ensures u.node !in q.pending || AtLeast(u, q.pending[u.node].update) ==>
              q'.pending[u.node] == Pending(u, q.budget)
  {
  }

  /** Other entries stay as they are, except that one with the least budget goes when a
      full queue needs room for a new node. */
  lemma AddKeepsOthers(q: Queue, u: Update, q': Queue, x: NodeId)
    requires Added(q, u, q') && x != u.node
    ensures x in q'.pending ==> x in q.pending && q'.pending[x] == q.pending[x]
    ensures x in q.pending && x !in q'.pending ==>
              && u.node !in q.pending && |q.pending| >= q.maxEntries
              && forall y :: y in q.pending ==> q.pending[x].left <= q.pending[y].left
    ensures u.node in q.pending || |q.pending| < q.maxEntries ==> (x in q'.pending <==> x in q.pending)
  {
    if u.node !in q.pending && |q.pending| >= q.maxEntries && q.pending != map[] {
      var rest :| MadeRoom(q.pending, rest) && q'.pending == rest[u.node := Pending(u, q.budget)];
      var id :| id in q.pending && LeastLeft(q.pending, id) && rest == q.pending - {id};
    }
  }

  /** `id` was in the queue at every moment after `i` and up to `j`. */
  ghost predicate PresentSince(qs: seq<Queue>, id: NodeId, i: nat, j: nat)
  {
    j < |qs| && forall k :: i < k <= j ==> id in qs[k].pending
  }

  /** The pending update supersedes every update added for its node since the node
      was last absent. */
  lemma {:induction false} PendingIsMaximal(qs: seq<Queue>, ops: seq<Op>, i: nat, j: nat, u: Update)
    requires IsRun(qs, ops) && i < j <= |ops| && ops[i] == Add(u) && PresentSince(qs, u.node, i, j)
    ensures u.node in qs[j].pending && AtLeast(qs[j].pending[u.node].update, u)
    decreases j
  {
    hide Sound, Added, Drained;
    assert Step(qs[j - 1], ops[j - 1], qs[j]);
    if j == i + 1 {
      AddSupersedes(qs[i], u, qs[j]);
    } else {
      PendingIsMaximal(qs, ops, i, j - 1, u);
      AlwaysSound(qs, ops, j - 1);
      StepSupersedes(qs[j - 1], ops[j - 1], qs[j], u.node);
    }
  }

  /** The pending update was itself added since the node was last absent. */
  lemma {:induction false} PendingWasAdded(qs: seq<Queue>, ops: seq<Op>, j: nat, id: NodeId) returns (i: nat)
    requires IsRun(qs, ops) && j <= |ops| && id in qs[j].pending
    ensures i < j && PresentSince(qs, id, i, j) && ops[i] == Add(qs[j].pending[id].update)
    decreases j
  {
    hide Sound, Drained;
    assert Step(qs[j - 1], ops[j - 1], qs[j]);
    AlwaysSound(qs, ops, j - 1);
    if id in qs[j - 1].pending {
      StepSupersedes(qs[j - 1], ops[j - 1], qs[j], id);
      if qs[j].pending[id].update == qs[j - 1].pending[id].update {
        i := PendingWasAdded(qs, ops, j - 1, id);
      } else {
        i := j - 1;
      }
    } else {
      StepEnters(qs[j - 1], ops[j - 1], qs[j], id);
      i := j - 1;
    }
  }

  lemma StepEnters(q: Queue, op: Op, q': Queue, id: NodeId)
    requires Sound(q) && Step(q, op, q') && id !in q.pending
    ensures id in q'.pending ==> op == Add(q'.pending[id].update)
  {
    match op
    case Add(u) =>
      if |q.pending| >= q.maxEntries && u.node !in q.pending {
        var rest :| MadeRoom(q.pending, rest) && q'.pending == rest[u.node := Pending(u, q.budget)];
        MadeRoomSize(q.pending, rest, q.maxEntries);
      }
    case Drain(max) =>
      var out :| Drained(q, max, out, q');
      var ids :| DrainedBy(q, max, ids, out, q');
  }

  // ---------------------------------------------------------------------------
  // The budget for a cluster size
  // ---------------------------------------------------------------------------

  function Pow2(n: nat): (r: nat)
    ensures r >= 1
  {
    if n == 0 then 1 else 2 * Pow2(n - 1)
  }

  /** Leading zeros of `x` written in `bits` binary digits. */
  function LeadingZeros(x: nat, bits: nat): (z: nat)
    requires x < Pow2(bits)
    ensures z <= bits
    ensures x < Pow2(bits - z)
    ensures z < bits ==> x >= Pow2(bits - z - 1)
    ensures z == bits ==> x == 0
  {
    if bits == 0 || x >= Pow2(bits - 1) then 0 else 1 + LeadingZeros(x, bits - 1)
  }

  lemma WordBits()
    ensures Pow2(WORD_BITS) == U64_MAX + 1
  {
    assert Pow2(4) == 16;
    Doubling(4, 4);
    assert Pow2(8) == 0x100;
    Doubling(8, 8);
    assert Pow2(16) == 0x1_0000;
    Doubling(16, 16);
    assert Pow2(32) == 0x1_0000_0000;
    Doubling(32, 32);
  }

  lemma {:induction false} Doubling(a: nat, b: nat)
    ensures Pow2(a + b) == Pow2(a) * Pow2(b)
    decreases b
  {
    if b > 0 {
      Doubling(a, b - 1);
      assert Pow2(a + b) == 2 * Pow2(a + (b - 1));
    }
  }

  function BudgetFor(clusterSize: Word): (b: nat)
    ensures b >= 1 && Pow2(b - 1) <= Max(clusterSize, 1) < Pow2(b)
  {
    WordBits();
    Max(WORD_BITS - LeadingZeros(Max(clusterSize, 1), WORD_BITS), 1)
  }

  // ---------------------------------------------------------------------------
  // The queue
  // ---------------------------------------------------------------------------

  lemma AddedAllSnoc(q: Queue, us: seq<Update>, mid: Queue, u: Update, q': Queue)
    requires AddedAll(q, us, mid) && Added(mid, u, q')
    ensures AddedAll(q, us + [u], q')
  {
    var qs :| AddedVia(q, us, mid, qs);
    assert AddedVia(q, us + [u], q', qs + [q']);
  }

  class GossipQueue {
    var pending: map<NodeId, Pending>
    const maxEntries: nat
    const budget: nat

    ghost function View(): Queue
      reads this
    {
      Queue(pending, maxEntries, budget)
    }

    constructor ()
      ensures Sound(View()) && View() == Queue(map[], DEFAULT_MAX_ENTRIES, DEFAULT_BUDGET)
    {
      pending, maxEntries, budget := map[], DEFAULT_MAX_ENTRIES, DEFAULT_BUDGET;
    }

    constructor WithClusterSize(clusterSize: Word, max: nat)
      ensures Sound(View()) && View() == Queue(map[], Max(max, 1), BudgetFor(clusterSize))
    {
      pending, maxEntries, budget := map[], Max(max, 1), BudgetFor(clusterSize);
    }

    method AddUpdate(u: Update)
      modifies this
      ensures Added(old(View()), u, View())
    {
      var id := u.node;
      if id in pending && !Supersedes(u, pending[id].update) {
        return;
      }
      if id in pending {
        pending := pending[id := Pending(u, budget)];
      } else {
        if |pending| >= maxEntries {
          EvictOne();
        }
        pending := pending[id := Pending(u, budget)];
      }
    }

    method EvictOne()
      modifies this
      ensures MadeRoom(old(pending), pending)
    {
      if pending == map[] {
        return;
      }
      var victim := LeastLeftOf(pending);
      pending := pending - {victim};
    }

    /** Send up to `max` updates, highest budgets first. */
    method DrainUpdates(max: nat) returns (out: seq<Update>)
      modifies this
      ensures Drained(old(View()), max, out, View())
    {
      hide SentUpTo, Picked, Drained;
      var ids := HighestFirst(View(), pending, max);
      ghost var before := pending;
      out := [];
      SentNone(View(), max, ids);
      for k := 0 to |ids|
        invariant pending == SentUpTo(old(View()), max, ids, k)
        invariant |out| == k && forall i :: 0 <= i < k ==> out[i] == before[ids[i]].update
      {
        var id := ids[k];
        SentOneMore(old(View()), max, ids, k);
        out := out + [pending[id].update];
        var left := SaturatingSub(pending[id].left, 1);
        pending := pending[id := pending[id].(left := left)];
        if left == 0 {
          pending := pending - {id};
        }
      }
      AllSent(old(View()), max, ids, out, View());
    }
  }

  lemma AllSent(q: Queue, max: nat, ids: seq<NodeId>, out: seq<Update>, q': Queue)
    requires Picked(q, max, ids) && q' == q.(pending := SentUpTo(q, max, ids, |ids|))
    requires |out| == |ids| && forall i :: 0 <= i < |ids| ==> out[i] == q.pending[ids[i]].update
    ensures Drained(q, max, out, q')
  {
    hide SentAll;
    assert ids[..|ids|] == ids;
    assert DrainedBy(q, max, ids, out, q');
  }

  /** What is pending once the first `k` of the picked updates are sent. */
  ghost function SentUpTo(q: Queue, max: nat, ids: seq<NodeId>, k: nat): map<NodeId, Pending>
    requires Picked(q, max, ids) && k <= |ids|
  {
    SentAll(q.pending, ids[..k])
  }

  lemma SentNone(q: Queue, max: nat, ids: seq<NodeId>)
    requires Picked(q, max, ids)
    ensures SentUpTo(q, max, ids, 0) == q.pending
  {
  }

  lemma SentOneMore(q: Queue, max: nat, ids: seq<NodeId>, k: nat)
    requires Picked(q, max, ids) && k < |ids|
    ensures ids[k] in q.pending
    ensures var mid, id := SentUpTo(q, max, ids, k), ids[k];
            && id in mid && mid[id] == q.pending[id]
            && var left := SaturatingSub(mid[id].left, 1);
               var set' := mid[id := mid[id].(left := left)];
               SentUpTo(q, max, ids, k + 1) == if left == 0 then set' - {id} else set'
  {
    hide SentAll, Sent;
    SentAllNext(q.pending, ids, k);
    SentEither(SentAll(q.pending, ids[..k]), ids[k]);
  }

  lemma SentAllNext(pending: map<NodeId, Pending>, ids: seq<NodeId>, k: nat)
    requires forall i :: 0 <= i < |ids| ==> ids[i] in pending
    requires forall i, j :: 0 <= i < j < |ids| ==> ids[i] != ids[j]
    requires k < |ids|
    ensures var mid, id := SentAll(pending, ids[..k]), ids[k];
            id in mid && mid[id] == pending[id] && SentAll(pending, ids[..k + 1]) == Sent(mid, id)
  {
    hide SentAll, Sent;
    assert ids[..k + 1][..k] == ids[..k] && ids[k] !in ids[..k];
    SentAllSnoc(pending, ids[..k + 1]);
  }

  lemma SentEither(pending: map<NodeId, Pending>, id: NodeId)
    requires id in pending
    ensures var left := SaturatingSub(pending[id].left, 1);
            var set' := pending[id := pending[id].(left := left)];
            Sent(pending, id) == if left == 0 then set' - {id} else set'
  {
    assert pending[id := pending[id].(left := SaturatingSub(pending[id].left, 1))] - {id} == pending - {id};
  }

  lemma SentAllSnoc(pending: map<NodeId, Pending>, ids: seq<NodeId>)
    requires forall i :: 0 <= i < |ids| ==> ids[i] in pending
    requires forall i, j :: 0 <= i < j < |ids| ==> ids[i] != ids[j]
    requires ids != []
    ensures var mid, id := SentAll(pending, ids[..|ids| - 1]), ids[|ids| - 1];
            id in mid && SentAll(pending, ids) == Sent(mid, id)
  {
    assert ids[|ids| - 1] !in ids[..|ids| - 1];
  }

  method LeastLeftOf(pending: map<NodeId, Pending>) returns (id: NodeId)
    requires pending != map[]
    ensures LeastLeft(pending, id)
  {
    id :| id in pending;
    var rest := pending.Keys - {id};
    while rest != {}
      invariant id in pending && rest <= pending.Keys
      invariant forall x :: x in pending && x !in rest ==> pending[id].left <= pending[x].left
      decreases |rest|
    {
      var x :| x in rest;
      rest := rest - {x};
      if pending[x].left < pending[id].left {
        id := x;
      }
    }
  }

  method MostLeftOf(pending: map<NodeId, Pending>, among: set<NodeId>) returns (id: NodeId)
    requires among != {} && among <= pending.Keys
    ensures id in among && forall x :: x in among ==> pending[id].left >= pending[x].left
  {
    id :| id in among;
    var rest := among - {id};
    while rest != {}
      invariant id in among && rest <= among
      invariant forall x :: x in among && x !in rest ==> pending[id].left >= pending[x].left
      decreases |rest|
    {
      var x :| x in rest;
      rest := rest - {x};
      if pending[x].left > pending[id].left {
        id := x;
      }
    }
  }

  /** Up to `max` entries of the queue, highest budgets first. */
  method HighestFirst(ghost q: Queue, pending: map<NodeId, Pending>, max: nat) returns (ids: seq<NodeId>)
    requires q.pending == pending
    ensures Picked(q, max, ids)
    ensures forall k :: 0 <= k < |ids| ==> ids[k] in pending
  {
    ids := [];
    var rest := pending.Keys;
    while |ids| < max && rest != {}
      invariant rest <= pending.Keys && |ids| + |rest| == |pending| && |ids| <= max
      invariant forall k :: 0 <= k < |ids| ==> ids[k] in pending
      invariant forall x :: x in pending ==> (x in rest <==> x !in ids)
      invariant forall j, k :: 0 <= j < k < |ids| ==> ids[j] != ids[k]
      invariant forall j, k :: 0 <= j < k < |ids| ==> pending[ids[j]].left >= pending[ids[k]].left
      invariant forall k, x :: 0 <= k < |ids| && x in rest ==> pending[ids[k]].left >= pending[x].left
      decreases |rest|
    {
      var id := MostLeftOf(pending, rest);
      rest := rest - {id};
      ids := ids + [id];
    }
  }
}

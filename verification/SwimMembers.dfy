/** What one node believes about the members of its cluster, and how beliefs
    are merged. A member is kept under its own id. */
module SwimMembers {
  import opened Values

  type Word = n: nat | n <= U64_MAX

  type NodeId = Word

  type Addr = string

  type Cert = Option<seq<nat>>

  datatype NodeState = Alive | Suspect | Dead

  datatype Member = Member(addr: Addr, state: NodeState, incarnation: Word, cert: Cert)

  datatype Update =
    | AliveUpdate(node: NodeId, addr: Addr, incarnation: Word, cert: Cert)
    | SuspectUpdate(node: NodeId, addr: Addr, incarnation: Word)
    | DeadUpdate(node: NodeId, addr: Addr, incarnation: Word)
    | LeaveUpdate(node: NodeId, addr: Addr, incarnation: Word)

  datatype Members = Members(self: NodeId, addr: Addr, cert: Cert, incarnation: Word, list: map<NodeId, Member>)

  const MAX_INCARNATION_JUMP: nat := 0x1_0000_0000

  /** A forward jump so far that no refutation could follow is refused. */
  predicate Acceptable(current: Word, proposed: Word)
  {
    proposed <= current || proposed - current <= MAX_INCARNATION_JUMP
  }

  function NewMember(addr: Addr): Member
  {
    Member(addr, Alive, 0, None)
  }

  function Suspected(m: Member, i: Word): Member
  {
    if m.state != Dead && Acceptable(m.incarnation, i) && i >= m.incarnation
    then m.(state := Suspect, incarnation := i) else m
  }

  function Revived(m: Member, i: Word): Member
  {
    if Acceptable(m.incarnation, i) && i > m.incarnation then m.(state := Alive, incarnation := i) else m
  }

  function Killed(m: Member, i: Word): Member
  {
    if m.state != Dead && Acceptable(m.incarnation, i) && i >= m.incarnation
    then m.(state := Dead, incarnation := i) else m
  }

  function WithSelf(self: NodeId, addr: Addr, cert: Cert): Members
  {
    Members(self, addr, cert, 0, map[self := NewMember(addr).(cert := cert)])
  }

  function Bumped(own: Word, rumour: Word): (next: Word)
    ensures next >= own && next >= rumour
    ensures next > own <==> own < U64_MAX
    ensures own <= rumour ==> (next > rumour <==> rumour < U64_MAX)
  {
    Max(SaturatingAdd(own, 1), SaturatingAdd(rumour, 1))
  }

  /** React to a rumour that this node is not alive. */
  function Refute(ms: Members, rumour: Word): (Members, Option<Update>)
  {
    if rumour < ms.incarnation then (ms, None) else
      var next := Bumped(ms.incarnation, rumour);
      (ms.(incarnation := next,
           list := if ms.self in ms.list
                   then ms.list[ms.self := ms.list[ms.self].(state := Alive, incarnation := next)] else ms.list),
       Some(AliveUpdate(ms.self, ms.addr, next, ms.cert)))
  }

  /** Merge an update into what is known about another node. */
  function Merged(known: Option<Member>, u: Update): Option<Member>
  {
    match u
    case AliveUpdate(_, addr, i, cert) =>
      Some(if known.Some? then Revived(known.value, i) else Member(addr, Alive, i, cert))
    case SuspectUpdate(_, addr, i) =>
      Some(Suspected(if known.Some? then known.value else NewMember(addr), i))
    case DeadUpdate(_, _, i) => if known.Some? then Some(Killed(known.value, i)) else None
    case LeaveUpdate(_, _, i) => if known.Some? then Some(Killed(known.value, i)) else None
  }

  function Known(ms: Members, id: NodeId): Option<Member>
  {
    Entry(ms.list, id)
  }

  function Apply(ms: Members, u: Update): (Members, Option<Update>)
  {
    if u.node == ms.self then
      if u.AliveUpdate? then (ms, None) else Refute(ms, u.incarnation)
    else
      var merged := Merged(Known(ms, u.node), u);
      (if merged.Some? then ms.(list := ms.list[u.node := merged.value]) else ms, None)
  }

  function ApplyAll(ms: Members, us: seq<Update>): Members
  {
    if us == [] then ms else Apply(ApplyAll(ms, us[..|us| - 1]), us[|us| - 1]).0
  }

  /** The refutations that applying the updates in turn produces. */
  function Refutations(ms: Members, us: seq<Update>): seq<Update>
  {
    if us == [] then [] else
      var earlier := Refutations(ms, us[..|us| - 1]);
      var refutation := Apply(ApplyAll(ms, us[..|us| - 1]), us[|us| - 1]).1;
      if refutation.Some? then earlier + [refutation.value] else earlier
  }

  // ---------------------------------------------------------------------------
  // Peers
  // ---------------------------------------------------------------------------

  /** `m'` is at least as recent as `m`: the incarnation never goes back, and a
      death is only forgotten for a strictly higher incarnation. */
  predicate Fresher(m: Member, m': Member)
  {
    m'.incarnation > m.incarnation || (m'.incarnation == m.incarnation && (m.state == Dead ==> m'.state == Dead))
  }

  /** Something in `us` vouches for `id` at a higher incarnation than `i`. */
  ghost predicate Vouched(us: seq<Update>, id: NodeId, i: Word)
  {
    exists u :: u in us && u.AliveUpdate? && u.node == id && u.incarnation > i
  }

  lemma {:induction false} ApplyAllPeers(ms: Members, us: seq<Update>, id: NodeId)
    requires id != ms.self && id in ms.list
    ensures ApplyAll(ms, us).self == ms.self && id in ApplyAll(ms, us).list
    ensures Fresher(ms.list[id], ApplyAll(ms, us).list[id])
    ensures ms.list[id].state == Dead && ApplyAll(ms, us).list[id].state != Dead ==>
              Vouched(us, id, ms.list[id].incarnation)
    decreases |us|
  {
    if us != [] {
      var init, u := us[..|us| - 1], us[|us| - 1];
      assert us == init + [u];
      ApplyAllPeers(ms, init, id);
      var mid := ApplyAll(ms, init);
      if Vouched(init, id, ms.list[id].incarnation) {
        var v :| v in init && v.AliveUpdate? && v.node == id && v.incarnation > ms.list[id].incarnation;
        assert v in us;
      }
      if u.node == id && ms.list[id].state == Dead && mid.list[id].state == Dead && u.AliveUpdate? {
        assert u in us;
      }
    }
  }

  // ---------------------------------------------------------------------------
  // Merging two updates
  // ---------------------------------------------------------------------------

  function Rank(state: NodeState): nat
  {
    match state case Alive => 0 case Suspect => 1 case Dead => 2
  }

  function Claim(u: Update): NodeState
  {
    match u
    case AliveUpdate(_, _, _, _) => Alive
    case SuspectUpdate(_, _, _) => Suspect
    case DeadUpdate(_, _, _) => Dead
    case LeaveUpdate(_, _, _) => Dead
  }

  /** The belief (i, s) outranks the belief (j, t). */
  predicate Outranks(i: Word, s: NodeState, j: Word, t: NodeState)
  {
    i > j || (i == j && Rank(s) > Rank(t))
  }

  /** What is believed about a node, or claimed by an update. */
  datatype Belief = Belief(incarnation: Word, state: NodeState)

  function Held(m: Member): Belief
  {
    Belief(m.incarnation, m.state)
  }

  function Claimed(u: Update): Belief
  {
    Belief(u.incarnation, Claim(u))
  }

  /** A claim is heeded if it outranks the belief without jumping absurdly far; a
      death only gives way to a higher Alive. */
  function Heeded(b: Belief, claim: Belief): Belief
  {
    if claim.incarnation <= b.incarnation + MAX_INCARNATION_JUMP
       && Outranks(claim.incarnation, claim.state, b.incarnation, b.state)
       && (b.state == Dead ==> claim.state == Alive)
    then claim else b
  }

  /** For a member not known dead, merging an update keeps the higher-ranked belief,
      unless the update jumps absurdly far. A member known dead only listens to a
      higher Alive. */
  lemma MergeKeepsHigher(m: Member, u: Update)
    ensures var m' := Merged(Some(m), u).value;
            Held(m') == Heeded(Held(m), Claimed(u)) && m'.addr == m.addr && m'.cert == m.cert
  {
  }

  function MergedTwice(known: Option<Member>, u: Update, v: Update): Option<Member>
  {
    Merged(Merged(known, u), v)
  }

  /** Of two updates about a listed member, hearing `u` first decides whether `v` is
      heard: a death hides a newer rumour of failure; a return from the dead lets in a
      rumour that is not older; and a step up brings an update within reach that was too
      far a jump before. */
  predicate Clash(b: Belief, u: Belief, v: Belief)
  {
    var c, i, j, far := b.incarnation, u.incarnation, v.incarnation, MAX_INCARNATION_JUMP;
    if b.state == Dead then
      u.state == Alive && c < i <= c + far && (if v.state == Alive then c + far < j else i <= j) && j <= i + far
    else
      || (u.state == Dead && v.state != Alive && c <= i < j <= c + far)
      || (c + far < j <= i + far <= c + 2 * far && (v.state == Alive || u.state != Dead))
  }

  /** Where a rumour of failure puts a node that was not known. */
  function FirstSuspected(i: Word): Word
  {
    if i <= MAX_INCARNATION_JUMP then i else 0
  }

  /** Of two updates about a node not yet known, the order decides: the first to list it
      fixes its address and certificate, a death only counts once it is listed, and what
      it is listed at decides what is too far a jump. */
  predicate FirstSightClash(u: Update, v: Update)
  {
    var i, j, far := u.incarnation, v.incarnation, MAX_INCARNATION_JUMP;
    match (Claim(u), Claim(v))
    case (Dead, Dead) => false
    case (Alive, Dead) => i <= j <= i + far
    case (Suspect, Dead) => FirstSuspected(i) <= j <= FirstSuspected(i) + far
    case (Dead, Alive) => j <= i <= j + far
    case (Dead, Suspect) => FirstSuspected(j) <= i <= FirstSuspected(j) + far
    case (Alive, Alive) => u.addr != v.addr || u.cert != v.cert || i > j + far || j > i + far
    case (Suspect, Suspect) => u.addr != v.addr || i <= far < j <= i + far || j <= far < i <= j + far
    case (Alive, Suspect) => AliveSuspectClash(u, v)
    case (Suspect, Alive) => AliveSuspectClash(v, u)
  }

  predicate AliveSuspectClash(u: Update, v: Update)
    requires u.AliveUpdate? && v.SuspectUpdate?
  {
    var i, j, far := u.incarnation, v.incarnation, MAX_INCARNATION_JUMP;
    u.addr != v.addr || u.cert != None || (if j <= far then i > j + far else i > far || j <= i + far)
  }

  lemma HeededCommutesIff(b: Belief, u: Belief, v: Belief)
    ensures Heeded(Heeded(b, u), v) == Heeded(Heeded(b, v), u) <==> !Clash(b, u, v) && !Clash(b, v, u)
  {
  }

  lemma ListedMergeCommutesIff(m: Member, u: Update, v: Update)
    ensures MergedTwice(Some(m), u, v) == MergedTwice(Some(m), v, u) <==>
              !Clash(Held(m), Claimed(u), Claimed(v)) && !Clash(Held(m), Claimed(v), Claimed(u))
  {
    hide Suspected, Revived, Killed, Heeded, Clash;
    MergeKeepsHigher(m, u);
    MergeKeepsHigher(m, v);
    MergeKeepsHigher(Merged(Some(m), u).value, v);
    MergeKeepsHigher(Merged(Some(m), v).value, u);
    HeededCommutesIff(Held(m), Claimed(u), Claimed(v));
  }

  lemma UnknownMergeCommutesIff(u: Update, v: Update)
    ensures MergedTwice(None, u, v) == MergedTwice(None, v, u) <==> !FirstSightClash(u, v)
  {
  }

  /** Merging is not commutative. Two updates about a node can be merged in either order
      if and only if they do not clash. */
  lemma MergeCommutesIff(known: Option<Member>, u: Update, v: Update)
    ensures MergedTwice(known, u, v) == MergedTwice(known, v, u) <==>
              match known
              case Some(m) => !Clash(Held(m), Claimed(u), Claimed(v)) && !Clash(Held(m), Claimed(v), Claimed(u))
              case None => !FirstSightClash(u, v)
  {
    hide MergedTwice, Clash, FirstSightClash;
    match known
    case Some(m) => ListedMergeCommutesIff(m, u, v);
    case None => UnknownMergeCommutesIff(u, v);
  }

  // ---------------------------------------------------------------------------
  // The node itself
  // ---------------------------------------------------------------------------

  predicate SelfAlive(ms: Members)
  {
    ms.self in ms.list && ms.list[ms.self].state == Alive && ms.list[ms.self].incarnation == ms.incarnation
  }

  predicate Hostile(u: Update, self: NodeId)
  {
    u.node == self && !u.AliveUpdate?
  }

  /** Some rumour in `us` that the node is not alive is not stale. */
  ghost predicate Challenged(ms: Members, us: seq<Update>)
  {
    exists u :: u in us && Hostile(u, ms.self) && u.incarnation >= ms.incarnation
  }

  lemma ChallengedSnoc(ms: Members, us: seq<Update>, u: Update)
    ensures Challenged(ms, us + [u]) <==> Challenged(ms, us) || (Hostile(u, ms.self) && u.incarnation >= ms.incarnation)
  {
    if Challenged(ms, us) {
      var v :| v in us && Hostile(v, ms.self) && v.incarnation >= ms.incarnation;
      assert v in us + [u];
    }
    if Hostile(u, ms.self) && u.incarnation >= ms.incarnation {
      assert u in us + [u];
    }
  }

  function OwnAlive(ms: Members): Update
  {
    AliveUpdate(ms.self, ms.addr, ms.incarnation, ms.cert)
  }

  /** The node survives any gossip about itself, and its incarnation does not go
      back. */
  lemma {:induction false} ApplyAllSelf(ms: Members, us: seq<Update>)
    requires SelfAlive(ms)
    ensures var ms' := ApplyAll(ms, us);
            && SelfAlive(ms') && ms'.self == ms.self && ms'.addr == ms.addr && ms'.cert == ms.cert
            && ms'.incarnation >= ms.incarnation
    decreases |us|
  {
    if us != [] {
      ApplyAllSelf(ms, us[..|us| - 1]);
    }
  }

  /** The incarnation ends above every rumour the node was challenged with, unless
      the rumour is at the largest incarnation there is. */
  lemma {:induction false} RumoursOutlived(ms: Members, us: seq<Update>)
    requires SelfAlive(ms)
    ensures forall u :: u in us && Hostile(u, ms.self) && u.incarnation >= ms.incarnation ==>
              (ApplyAll(ms, us).incarnation > u.incarnation <==> u.incarnation < U64_MAX)
    decreases |us|
  {
    if us != [] {
      var init, u := us[..|us| - 1], us[|us| - 1];
      assert us == init + [u];
      ApplyAllSelf(ms, init);
      RumoursOutlived(ms, init);
    }
  }

  /** Alive updates about `self`, in increasing incarnations from `lo` to `hi`. */
  ghost predicate OwnClaims(rs: seq<Update>, self: NodeId, lo: Word, hi: Word)
  {
    && (forall k :: 0 <= k < |rs| ==> rs[k].AliveUpdate? && rs[k].node == self && lo <= rs[k].incarnation <= hi)
    && (forall j, k :: 0 <= j < k < |rs| ==> rs[j].incarnation <= rs[k].incarnation)
  }

  /** One update either refutes a rumour or leaves the node's own record alone. */
  lemma ApplySelf(ms: Members, u: Update)
    requires SelfAlive(ms)
    ensures var (ms', r) := Apply(ms, u);
            && (r.Some? <==> Hostile(u, ms.self) && u.incarnation >= ms.incarnation)
            && (r.Some? ==> r.value == OwnAlive(ms'))
            && (r.None? ==> ms'.incarnation == ms.incarnation)
            && ms'.incarnation >= ms.incarnation && ms'.self == ms.self
  {
  }

  lemma OwnClaimsGrow(rs: seq<Update>, self: NodeId, lo: Word, hi: Word, r: Update)
    requires OwnClaims(rs, self, lo, hi) && lo <= hi <= r.incarnation && r.AliveUpdate? && r.node == self
    ensures OwnClaims(rs + [r], self, lo, r.incarnation)
  {
  }

  /** Every refutation is the node's own Alive, in increasing incarnations up to
      the current one, and there is one as soon as the node is challenged. */
  lemma {:induction false} RefutationsAreOwn(ms: Members, us: seq<Update>)
    requires SelfAlive(ms)
    ensures var rs, ms' := Refutations(ms, us), ApplyAll(ms, us);
            && (rs != [] <==> Challenged(ms, us))
            && (rs != [] ==> rs[|rs| - 1] == OwnAlive(ms'))
            && (rs == [] ==> ms'.incarnation == ms.incarnation)
            && OwnClaims(rs, ms.self, ms.incarnation, ms'.incarnation)
    decreases |us|
  {
    if us != [] {
      hide Apply, OwnClaims, SelfAlive, Challenged;
      var init, u := us[..|us| - 1], us[|us| - 1];
      assert us == init + [u];
      RefutationsAreOwn(ms, init);
      ApplyAllSelf(ms, init);
      var mid := ApplyAll(ms, init);
      ApplySelf(mid, u);
      ChallengedSnoc(ms, init, u);
      if Apply(mid, u).1.Some? {
        OwnClaimsGrow(Refutations(ms, init), ms.self, ms.incarnation, mid.incarnation, Apply(mid, u).1.value);
      }
    } else {
      assert ApplyAll(ms, us) == ms;
    }
  }

  function Entry(list: map<NodeId, Member>, id: NodeId): Option<Member>
  {
    if id in list then Some(list[id]) else None
  }

  lemma MarkedDead(before: map<NodeId, Member>, after: map<NodeId, Member>, id: NodeId, i: Word)
    requires Entry(after, id) == Merged(Entry(before, id), DeadUpdate(id, "", i))
    requires forall x :: x != id ==> Entry(after, x) == Entry(before, x)
    ensures after == if id in before then before[id := Killed(before[id], i)] else before
  {
    forall x ensures x in after <==> x in before { assert x != id ==> Entry(after, x) == Entry(before, x); }
    forall x | x in after && x != id ensures after[x] == before[x] { assert Entry(after, x) == Entry(before, x); }
  }

  class MembershipList {
    const selfId: NodeId
    const selfAddr: Addr
    const selfCert: Cert
    var selfIncarnation: Word
    var members: map<NodeId, Member>

    ghost function View(): Members
      reads this
    {
      Members(selfId, selfAddr, selfCert, selfIncarnation, members)
    }

    constructor (id: NodeId, addr: Addr, cert: Cert)
      ensures View() == WithSelf(id, addr, cert)
    {
      selfId, selfAddr, selfCert, selfIncarnation := id, addr, cert, 0;
      members := map[id := NewMember(addr).(cert := cert)];
    }

    method RefuteAboutSelf(rumour: Word) returns (refutation: Option<Update>)
      modifies this
      ensures (View(), refutation) == Refute(old(View()), rumour)
    {
      if rumour < selfIncarnation {
        return None;
      }
      var next := Max(SaturatingAdd(selfIncarnation, 1), SaturatingAdd(rumour, 1));
      selfIncarnation := next;
      if selfId in members {
        members := members[selfId := members[selfId].(state := Alive, incarnation := next)];
      }
      return Some(AliveUpdate(selfId, selfAddr, next, selfCert));
    }

    method Add(id: NodeId, member: Member)
      modifies this
      ensures View() == old(View()).(list := old(members)[id := member])
    {
      members := members[id := member];
    }

    method ApplyUpdate(u: Update) returns (refutation: Option<Update>)
      modifies this
      ensures (View(), refutation) == Apply(old(View()), u)
    {
      if u.node == selfId {
        if u.AliveUpdate? { return None; }
        refutation := RefuteAboutSelf(u.incarnation);
        return;
      }
      match u {
        case AliveUpdate(id, addr, i, cert) =>
          if id in members {
            members := members[id := Revived(members[id], i)];
          } else {
            members := members[id := Member(addr, Alive, i, cert)];
          }
        case SuspectUpdate(id, addr, i) =>
          var entry := if id in members then members[id] else NewMember(addr);
          members := members[id := Suspected(entry, i)];
        case DeadUpdate(id, _, i) =>
          MarkDead(id, i);
          MarkedDead(old(members), members, id, i);
        case LeaveUpdate(id, _, i) =>
          MarkDead(id, i);
          MarkedDead(old(members), members, id, i);
      }
      return None;
    }

    /** Mark a node dead as a Dead rumour about it would: a stale or absurd mark is
        refused, an unknown node stays unknown, and nobody else is touched. */
    method MarkDead(id: NodeId, i: Word)
      modifies this`members
      ensures Entry(members, id) == Merged(Entry(old(members), id), DeadUpdate(id, "", i))
      ensures forall x :: x != id ==> Entry(members, x) == Entry(old(members), x)
    {
      if id in members {
        members := members[id := Killed(members[id], i)];
      }
    }

    method RemoveNode(id: NodeId)
      modifies this
      ensures View() == old(View()).(list := old(members) - {id})
    {
      members := members - {id};
    }
  }
}

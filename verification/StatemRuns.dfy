/** What holds in every run of the state machine engine, for any `handle_event`. */
module StatemRuns {
  import opened Values
  import opened Statem

  datatype Setup = Setup(state: Value, data: Value, enter: bool)

  function Exec(u: Setup, steps: seq<Step>): Machine
  {
    if steps == [] then Start(u.state, u.data, u.enter)
    else
      var m := Exec(u, steps[..|steps| - 1]);
      var s := steps[|steps| - 1];
      if Enabled(m, s) then Next(m, s, u.enter) else m
  }

  /** The machine before step `k`. */
  function Before(u: Setup, steps: seq<Step>, k: nat): Machine
    requires k <= |steps|
  {
    Exec(u, steps[..k])
  }

  ghost predicate ValidRun(u: Setup, steps: seq<Step>)
  {
    forall k :: 0 <= k < |steps| ==> Enabled(Before(u, steps, k), steps[k])
  }

  // ---------------------------------------------------------------------------
  // Actions and queues
  // ---------------------------------------------------------------------------

  function Arrivals(q: seq<Queued>): seq<nat>
  {
    if q == [] then []
    else (if q[0].arrival.Some? then [q[0].arrival.value] else []) + Arrivals(q[1..])
  }

  function NextEvents(actions: seq<Action>): seq<Queued>
  {
    if actions == [] then []
    else
      var a := actions[|actions| - 1];
      NextEvents(actions[..|actions| - 1]) + if a.NextEvent? then [Queued(Internal, a.payload, false, None)] else []
  }

  ghost predicate IsInternal(q: Queued)
  {
    !q.postponable && q.arrival == None
  }

  lemma {:induction false} ArrivalsAppend(a: seq<Queued>, b: seq<Queued>)
    ensures Arrivals(a + b) == Arrivals(a) + Arrivals(b)
    decreases |a|
  {
    if a == [] {
      assert a + b == b;
      assert [] + Arrivals(b) == Arrivals(b);
    } else {
      var tail := a[1..];
      ArrivalsAppend(tail, b);
      assert (a + b)[1..] == tail + b && (a + b)[0] == a[0];
      var head := if a[0].arrival.Some? then [a[0].arrival.value] else [];
      Associate(head, Arrivals(tail), Arrivals(b));
    }
  }

  lemma Associate(a: seq<nat>, b: seq<nat>, c: seq<nat>)
    ensures a + (b + c) == (a + b) + c
  {
  }

  lemma {:induction false} InternalArrivals(q: seq<Queued>)
    requires forall x :: x in q ==> IsInternal(x)
    ensures Arrivals(q) == []
    decreases |q|
  {
    if q != [] {
      assert q[0] in q;
      InternalArrivals(q[1..]);
    }
  }

  /** Actions append internal events to the back of the queue and move timers;
      they touch nothing else. */
  lemma {:induction false} ActionsEffect(m: Machine, actions: seq<Action>)
    ensures var m' := ApplyActions(m, actions);
            && m'.queue == m.queue + NextEvents(actions)
            && m'.postponed == m.postponed && m'.accepted == m.accepted
            && m'.state == m.state && m'.data == m.data && m'.stopped == m.stopped
    ensures forall x :: x in NextEvents(actions) ==> IsInternal(x)
    decreases |actions|
  {
    if actions == [] {
      assert m.queue + [] == m.queue;
    } else {
      ActionsEffect(m, actions[..|actions| - 1]);
    }
  }

  // ---------------------------------------------------------------------------
  // Where an event goes
  // ---------------------------------------------------------------------------

  ghost predicate Stops(s: Step)
  {
    s.ChannelClosed? || s.result.Stop? || s.result.StopAndReply?
  }

  ghost predicate Changes(m: Machine, s: Step)
  {
    !s.ChannelClosed? && s.result.NextState? && s.result.state != m.state
  }

  /** The step puts the event it handled on the postponed list. */
  ghost predicate Keeps(m: Machine, s: Step)
    requires Enabled(m, s)
  {
    && !Stops(s)
    && Postpone in Actions(s.result)
    && Taken(m, s).postponable
    && !Taken(m, s).etype.Call?
  }

  /** An external event kept by the engine has its arrival number; calls are
      never kept; internal events have none. */
  ghost predicate WellFormed(m: Machine)
  {
    && (forall q :: q in m.postponed ==> q.postponable && q.arrival.Some? && !q.etype.Call?)
    && (forall q :: q in m.queue ==> (q.postponable <==> q.arrival.Some?) && (q.postponable ==> !q.etype.Call?))
  }

  function Pending(m: Machine): seq<nat>
  {
    Arrivals(m.postponed) + Arrivals(m.queue)
  }

  /** The shape of the queues after a result that goes on is applied. */
  lemma ResultQueues(m: Machine, ev: Queued, r: Transition, enter: bool)
    requires !r.Stop? && !r.StopAndReply?
    ensures var m', added := HandleResult(m, ev, r, enter), NextEvents(Actions(r));
            var kept := if Postpone in Actions(r) && ev.postponable && !ev.etype.Call? then [ev] else [];
            var head := if enter then [Queued(Enter(m.state), Nil, false, None)] else [];
            && m'.accepted == m.accepted && m'.stopped == m.stopped
            && (if r.NextState? && r.state != m.state
                then m'.postponed == [] && m'.queue == head + (m.postponed + kept) + (m.queue + added)
                else m'.postponed == m.postponed + kept && m'.queue == m.queue + added)
  {
    hide ApplyActions, NextEvents;
    match r
    case NextState(state, data, _) =>
      ActionsEffect(m.(state := state, data := data, stateTimeout := if m.state != state then None else m.stateTimeout),
                    r.actions);
    case KeepState(data, _) => ActionsEffect(m.(data := data), r.actions);
    case KeepStateAndData(_) => ActionsEffect(m, r.actions);
  }

  /** The shape of the queues after a step that goes on. */
  lemma StepQueues(m: Machine, s: Step, enter: bool)
    requires Enabled(m, s) && WellFormed(m) && !Stops(s)
    ensures var m', ev, added := Next(m, s, enter), Taken(m, s), NextEvents(Actions(s.result));
            var kept := if Keeps(m, s) then [ev] else [];
            var head := if enter then [Queued(Enter(m.state), Nil, false, None)] else [];
            && m'.accepted == m.accepted + (if s.External? then 1 else 0)
            && !m'.stopped
            && (if Changes(m, s)
                then m'.postponed == [] && m'.queue == head + (m.postponed + kept) + (AfterTake(m, s).queue + added)
                else m'.postponed == m.postponed + kept && m'.queue == AfterTake(m, s).queue + added)
  {
    hide HandleResult, NextEvents, WellFormed;
    ResultQueues(AfterTake(m, s), Taken(m, s), s.result, enter);
  }

  lemma WellFormedStep(m: Machine, s: Step, enter: bool)
    requires Enabled(m, s) && WellFormed(m)
    ensures WellFormed(Next(m, s, enter))
  {
    hide Next, NextEvents;
    if Stops(s) {
      StopQueues(m, s, enter);
    } else {
      StepQueues(m, s, enter);
      ActionsEffect(m, Actions(s.result));
      TakenWellFormed(m, s);
      var m' := Next(m, s, enter);
      forall q | q in m'.postponed ensures q.postponable && q.arrival.Some? && !q.etype.Call? {
        assert q in m.postponed || (Keeps(m, s) && q == Taken(m, s));
      }
      forall q | q in m'.queue ensures (q.postponable <==> q.arrival.Some?) && (q.postponable ==> !q.etype.Call?) {
        assert q in m.postponed || (Keeps(m, s) && q == Taken(m, s)) || q in m.queue || IsInternal(q);
      }
    }
  }

  lemma TakenWellFormed(m: Machine, s: Step)
    requires Enabled(m, s) && WellFormed(m) && !s.ChannelClosed?
    ensures var ev := Taken(m, s);
            && (ev.postponable <==> ev.arrival.Some?)
            && (forall q :: q in AfterTake(m, s).queue ==> q in m.queue)
  {
    if s.Dequeue? { assert m.queue[0] in m.queue; }
  }

  lemma StopQueues(m: Machine, s: Step, enter: bool)
    requires Enabled(m, s) && Stops(s)
    ensures var m' := Next(m, s, enter);
            && m'.stopped && m'.postponed == m.postponed
            && (s.ChannelClosed? ==> m'.queue == m.queue && m'.accepted == m.accepted)
            && (!s.ChannelClosed? ==> m'.queue == AfterTake(m, s).queue && m'.accepted == AfterTake(m, s).accepted)
  {
  }

  // ---------------------------------------------------------------------------
  // Arrival order
  // ---------------------------------------------------------------------------

  ghost predicate Increasing(s: seq<nat>)
  {
    forall i, j :: 0 <= i < j < |s| ==> s[i] < s[j]
  }

  ghost predicate InOrder(m: Machine)
  {
    Increasing(Pending(m)) && forall i :: 0 <= i < |Pending(m)| ==> Pending(m)[i] < m.accepted
  }

  /** The arrival number of the event a step takes, if it has one. */
  function TakenArrival(m: Machine, s: Step): seq<nat>
    requires Enabled(m, s)
  {
    if s.ChannelClosed? then [] else if Taken(m, s).arrival.Some? then [Taken(m, s).arrival.value] else []
  }

  /** What is pending before the step, in terms of the event it takes. */
  lemma PendingBefore(m: Machine, s: Step)
    requires Enabled(m, s) && !s.ChannelClosed?
    ensures s.External? ==> TakenArrival(m, s) == [m.accepted] && Arrivals(AfterTake(m, s).queue) == []
                            && Pending(m) == Arrivals(m.postponed)
    ensures !s.External? ==>
              Pending(m) == Arrivals(m.postponed) + (TakenArrival(m, s) + Arrivals(AfterTake(m, s).queue))
  {
    if s.External? {
      assert Arrivals(m.postponed) + [] == Arrivals(m.postponed);
    } else if !s.Dequeue? {
      assert [] + Arrivals(AfterTake(m, s).queue) == Arrivals(AfterTake(m, s).queue);
    }
  }

  /** What is pending after the step: the postponed ones, then the event if it
      was kept, then the rest of the queue. State changes make no difference. */
  lemma PendingAfter(m: Machine, s: Step, enter: bool)
    requires Enabled(m, s) && WellFormed(m) && !s.ChannelClosed?
    ensures Pending(Next(m, s, enter)) ==
            Arrivals(m.postponed) + (if Keeps(m, s) then TakenArrival(m, s) else []) + Arrivals(AfterTake(m, s).queue)
  {
    hide Next;
    var m', rest := Next(m, s, enter), AfterTake(m, s).queue;
    assert Arrivals(m.postponed) + [] == Arrivals(m.postponed);
    if Stops(s) {
      StopQueues(m, s, enter);
    } else {
      StepQueues(m, s, enter);
      TakenWellFormed(m, s);
      var ev, added := Taken(m, s), NextEvents(Actions(s.result));
      var kept := if Keeps(m, s) then [ev] else [];
      var head := if enter then [Queued(Enter(m.state), Nil, false, None)] else [];
      ActionsEffect(m, Actions(s.result));
      InternalArrivals(added);
      InternalArrivals(head);
      ArrivalsAppend(rest, added);
      ArrivalsAppend(m.postponed, kept);
      assert Arrivals(kept) == if Keeps(m, s) then TakenArrival(m, s) else [] by {
        assert [ev][1..] == [];
      }
      assert Arrivals(rest) + [] == Arrivals(rest);
      if Changes(m, s) {
        ArrivalsAppend(head + (m.postponed + kept), rest + added);
        ArrivalsAppend(head, m.postponed + kept);
        assert Arrivals([]) == [];
        assert [] + Arrivals(m.postponed + kept) == Arrivals(m.postponed + kept);
        assert [] + (Arrivals(m.postponed + kept) + Arrivals(rest)) == Arrivals(m.postponed + kept) + Arrivals(rest);
      }
    }
  }

  lemma OrderAlgebra(a: seq<nat>, x: seq<nat>, c: seq<nat>, bound: nat)
    requires |x| <= 1
    requires Increasing(a + (x + c)) && forall i :: 0 <= i < |a + (x + c)| ==> (a + (x + c))[i] < bound
    ensures Increasing(a + c) && forall i :: 0 <= i < |a + c| ==> (a + c)[i] < bound
  {
    if |x| == 1 {
      var whole, part := a + (x + c), a + c;
      assert forall i :: 0 <= i < |a| ==> part[i] == whole[i];
      assert forall i :: |a| <= i < |part| ==> part[i] == whole[i + 1];
    } else {
      assert x + c == c;
    }
  }

  lemma InOrderStep(m: Machine, s: Step, enter: bool)
    requires Enabled(m, s) && WellFormed(m) && InOrder(m)
    ensures InOrder(Next(m, s, enter))
  {
    hide Next, Arrivals, Keeps, Stops;
    if s.ChannelClosed? {
      ClosedStep(m, s, enter);
    } else {
      AcceptedStep(m, s, enter);
      PendingBefore(m, s);
      PendingAfter(m, s, enter);
      var a, x, c := Arrivals(m.postponed), TakenArrival(m, s), Arrivals(AfterTake(m, s).queue);
      assert a + x + c == a + (x + c);
      assert a + [] + c == a + c;
      if !s.External? {
        OrderAlgebra(a, x, c, m.accepted);
      } else {
        assert a + x + [] == a + x;
        assert a + c == a;
      }
    }
  }

  lemma ClosedStep(m: Machine, s: Step, enter: bool)
    requires Enabled(m, s) && s.ChannelClosed?
    ensures Next(m, s, enter) == m.(stopped := true)
  {
  }

  lemma AcceptedStep(m: Machine, s: Step, enter: bool)
    requires Enabled(m, s) && WellFormed(m) && !s.ChannelClosed?
    ensures Next(m, s, enter).accepted == m.accepted + if s.External? then 1 else 0
  {
    if Stops(s) { StopQueues(m, s, enter); } else { StepQueues(m, s, enter); }
  }

  lemma {:induction false} OrderAlways(u: Setup, steps: seq<Step>)
    ensures WellFormed(Exec(u, steps)) && InOrder(Exec(u, steps))
    decreases |steps|
  {
    hide Next;
    if steps == [] {
      var m := Start(u.state, u.data, u.enter);
      InternalArrivals(m.queue);
    } else {
      OrderAlways(u, steps[..|steps| - 1]);
      var m, s := Exec(u, steps[..|steps| - 1]), steps[|steps| - 1];
      if Enabled(m, s) {
        WellFormedStep(m, s, u.enter);
        InOrderStep(m, s, u.enter);
      }
    }
  }

  /** Arrival order. In every run, for any `handle_event`, the postponed events
      followed by the external events waiting in the queue are in strictly
      increasing order of arrival, and none is newer than the last accepted. */
  lemma ArrivalOrder(u: Setup, steps: seq<Step>)
    ensures var m := Exec(u, steps);
            var pending := Arrivals(m.postponed) + Arrivals(m.queue);
            && (forall i, j :: 0 <= i < j < |pending| ==> pending[i] < pending[j])
            && (forall i :: 0 <= i < |pending| ==> pending[i] < m.accepted)
  {
    OrderAlways(u, steps);
  }

  // ---------------------------------------------------------------------------
  // No loss
  // ---------------------------------------------------------------------------

  /** External events the step finishes: handled and not asked to be postponed. */
  function Finished(m: Machine, s: Step): seq<nat>
    requires Enabled(m, s)
  {
    if !s.ChannelClosed? && !(Postpone in Actions(s.result)) then TakenArrival(m, s) else []
  }

  /** Calls the step drops: postponing was asked for, but a call cannot be kept. */
  function DroppedCalls(m: Machine, s: Step): seq<nat>
    requires Enabled(m, s)
  {
    if !s.ChannelClosed? && Postpone in Actions(s.result) && Taken(m, s).etype.Call? then TakenArrival(m, s) else []
  }

  datatype Ledger = Ledger(finished: seq<nat>, dropped: seq<nat>, inputs: seq<(EventType, Value)>)

  /** What an observer of the run writes down. */
  function Observe(u: Setup, steps: seq<Step>): Ledger
  {
    if steps == [] then Ledger([], [], [])
    else
      var l, m, s := Observe(u, steps[..|steps| - 1]), Exec(u, steps[..|steps| - 1]), steps[|steps| - 1];
      if !Enabled(m, s) then l
      else Ledger(
        l.finished + Finished(m, s),
        l.dropped + DroppedCalls(m, s),
        l.inputs + if s.External? then [(s.etype, s.payload)] else [])
  }

  function UpTo(n: nat): seq<nat>
  {
    seq(n, i => i)
  }

  /** Each arrival is either kept, finished or dropped by the step that takes it. */
  lemma TakenFate(m: Machine, s: Step)
    requires Enabled(m, s) && WellFormed(m) && !s.ChannelClosed?
    ensures (if Keeps(m, s) then TakenArrival(m, s) else []) + Finished(m, s) + DroppedCalls(m, s) == TakenArrival(m, s)
  {
    TakenWellFormed(m, s);
    var x := TakenArrival(m, s);
    assert x + [] + [] == x && [] + x + [] == x && [] + [] + x == x;
    if s.Dequeue? { assert m.queue[0] in m.queue; }
  }

  lemma FateStep(m: Machine, s: Step, enter: bool)
    requires Enabled(m, s) && WellFormed(m)
    ensures multiset(Pending(Next(m, s, enter))) + multiset(Finished(m, s)) + multiset(DroppedCalls(m, s)) ==
            multiset(Pending(m)) + multiset(if s.External? then [m.accepted] else [])
  {
    hide Next, Arrivals, Keeps, Finished, DroppedCalls;
    if s.ChannelClosed? {
      ClosedStep(m, s, enter);
      ClosedFate(m, s);
    } else {
      hide Pending, WellFormed;
      OpenFate(m, s, enter);
    }
  }

  lemma OpenFate(m: Machine, s: Step, enter: bool)
    requires Enabled(m, s) && WellFormed(m) && !s.ChannelClosed?
    ensures multiset(Pending(Next(m, s, enter))) + multiset(Finished(m, s)) + multiset(DroppedCalls(m, s)) ==
            multiset(Pending(m)) + multiset(if s.External? then [m.accepted] else [])
  {
    hide Next, Arrivals, Keeps, Finished, DroppedCalls, Pending, WellFormed, TakenArrival, AfterTake;
    PendingBefore(m, s);
    PendingAfter(m, s, enter);
    TakenFate(m, s);
    var a, x, c := Arrivals(m.postponed), TakenArrival(m, s), Arrivals(AfterTake(m, s).queue);
    var k, f, d := if Keeps(m, s) then x else [], Finished(m, s), DroppedCalls(m, s);
    Count3(k, f, d);
    Count3(a, k, c);
    Count3(a, x, c);
    Gather(multiset(a), multiset(k), multiset(c), multiset(f), multiset(d), multiset(x));
    if s.External? {
      EmptyTail(a, x, c);
    } else {
      Associate(a, x, c);
    }
  }

  lemma EmptyTail(a: seq<nat>, x: seq<nat>, c: seq<nat>)
    requires c == []
    ensures multiset(a + x + c) == multiset(a) + multiset(x)
  {
    assert a + x + c == a + x;
  }

  lemma Count3(a: seq<nat>, b: seq<nat>, c: seq<nat>)
    ensures multiset(a + b + c) == multiset(a) + multiset(b) + multiset(c)
  {
  }

  lemma Gather(a: multiset<nat>, k: multiset<nat>, c: multiset<nat>, f: multiset<nat>, d: multiset<nat>, x: multiset<nat>)
    requires k + f + d == x
    ensures (a + k + c) + f + d == a + x + c
  {
  }

  lemma Balance(p: multiset<nat>, f: multiset<nat>, d: multiset<nat>, p': multiset<nat>, f': multiset<nat>,
                d': multiset<nat>, all: multiset<nat>, x: multiset<nat>)
    requires p + f + d == all && p' + f' + d' == p + x
    ensures p' + (f + f') + (d + d') == all + x
  {
    assert p' + (f + f') + (d + d') == (p' + f' + d') + f + d;
    assert (p + x) + f + d == (p + f + d) + x;
  }

  lemma ClosedFate(m: Machine, s: Step)
    requires Enabled(m, s) && s.ChannelClosed?
    ensures Finished(m, s) == DroppedCalls(m, s) == []
  {
  }

  lemma {:induction false} FateAlways(u: Setup, steps: seq<Step>)
    ensures var m, l := Exec(u, steps), Observe(u, steps);
            multiset(Pending(m)) + multiset(l.finished) + multiset(l.dropped) == multiset(UpTo(m.accepted))
    decreases |steps|
  {
    hide Next, Pending, Finished, DroppedCalls;
    if steps == [] {
      NothingPending(u);
    } else {
      var init := steps[..|steps| - 1];
      FateAlways(u, init);
      OrderAlways(u, init);
      var m, s, l := Exec(u, init), steps[|steps| - 1], Observe(u, init);
      if Enabled(m, s) {
        var m' := Next(m, s, u.enter);
        FateStep(m, s, u.enter);
        if !s.ChannelClosed? { AcceptedStep(m, s, u.enter); } else { ClosedStep(m, s, u.enter); }
        var came := if s.External? then [m.accepted] else [];
        assert UpTo(m'.accepted) == UpTo(m.accepted) + came;
        Balance(multiset(Pending(m)), multiset(l.finished), multiset(l.dropped),
                multiset(Pending(m')), multiset(Finished(m, s)), multiset(DroppedCalls(m, s)),
                multiset(UpTo(m.accepted)), multiset(came));
      }
    }
  }

  lemma NothingPending(u: Setup)
    ensures Pending(Start(u.state, u.data, u.enter)) == [] && UpTo(0) == []
  {
    InternalArrivals(Start(u.state, u.data, u.enter).queue);
  }

  /** No loss. In every run each accepted external event is in exactly one place:
      finished, postponed, waiting in the queue, or dropped - and only a call
      whose handler asked to postpone it is ever dropped. */
  lemma NoEventLost(u: Setup, steps: seq<Step>)
    ensures var m, l := Exec(u, steps), Observe(u, steps);
            && multiset(Arrivals(m.postponed)) + multiset(Arrivals(m.queue)) + multiset(l.finished) + multiset(l.dropped)
               == multiset(UpTo(m.accepted))
            && |l.inputs| == m.accepted
            && (forall i :: i in l.dropped ==> i < |l.inputs| && l.inputs[i].0.Call?)
            && (forall q, i :: q in m.postponed + m.queue && q.arrival == Some(i) ==>
                  i < |l.inputs| && l.inputs[i] == (q.etype, q.payload))
  {
    hide Arrivals, Next, ReplayedIntact, Observe, Exec;
    FateAlways(u, steps);
    ContentAlways(u, steps);
    ContentFacts(Exec(u, steps), Observe(u, steps));
  }

  // ---------------------------------------------------------------------------
  // Replayed events keep their type and content
  // ---------------------------------------------------------------------------

  ghost predicate ReplayedIntact(m: Machine, l: Ledger)
  {
    && |l.inputs| == m.accepted
    && (forall i :: i in l.dropped ==> i < |l.inputs| && l.inputs[i].0.Call?)
    && (forall q :: q in m.postponed || q in m.queue ==> Intact(q, l.inputs))
  }

  ghost predicate Intact(q: Queued, inputs: seq<(EventType, Value)>)
  {
    q.arrival.Some? ==> q.arrival.value < |inputs| && inputs[q.arrival.value] == (q.etype, q.payload)
  }

  lemma ContentFacts(m: Machine, l: Ledger)
    requires ReplayedIntact(m, l)
    ensures && |l.inputs| == m.accepted
            && (forall i :: i in l.dropped ==> i < |l.inputs| && l.inputs[i].0.Call?)
            && (forall q, i :: q in m.postponed + m.queue && q.arrival == Some(i) ==>
                  i < |l.inputs| && l.inputs[i] == (q.etype, q.payload))
  {
    forall q, i | q in m.postponed + m.queue && q.arrival == Some(i)
      ensures i < |l.inputs| && l.inputs[i] == (q.etype, q.payload)
    {
      assert Intact(q, l.inputs);
    }
  }

  lemma KeptAsIs(m: Machine, s: Step, enter: bool, q: Queued)
    requires Enabled(m, s) && WellFormed(m)
    requires var m' := Next(m, s, enter); q in m'.postponed || q in m'.queue
    ensures IsInternal(q) || q in m.postponed || q in m.queue || (s.External? && q == Taken(m, s))
  {
    hide Next;
    if Stops(s) {
      StopQueues(m, s, enter);
      if !s.ChannelClosed? { TakenWellFormed(m, s); }
    } else {
      StepQueues(m, s, enter);
      TakenWellFormed(m, s);
      ActionsEffect(m, Actions(s.result));
      if s.Dequeue? { assert m.queue[0] in m.queue; }
    }
  }

  lemma ContentStep(m: Machine, s: Step, enter: bool, l: Ledger)
    requires Enabled(m, s) && WellFormed(m) && ReplayedIntact(m, l)
    ensures ReplayedIntact(Next(m, s, enter), Ledger(
              l.finished + Finished(m, s),
              l.dropped + DroppedCalls(m, s),
              l.inputs + if s.External? then [(s.etype, s.payload)] else []))
  {
    hide Next;
    var m' := Next(m, s, enter);
    var inputs := l.inputs + if s.External? then [(s.etype, s.payload)] else [];
    if s.ChannelClosed? { ClosedStep(m, s, enter); } else { AcceptedStep(m, s, enter); }
    forall q | q in m'.postponed || q in m'.queue ensures Intact(q, inputs) {
      KeptAsIs(m, s, enter, q);
      if q in m.postponed || q in m.queue { assert Intact(q, l.inputs); }
    }
    forall i | i in DroppedCalls(m, s) ensures i < |inputs| && inputs[i].0.Call? {
      DroppedOnArrival(m, s);
    }
  }

  /** Queued events are never calls, so only a call that just arrived can be dropped. */
  lemma DroppedOnArrival(m: Machine, s: Step)
    requires Enabled(m, s) && WellFormed(m)
    ensures DroppedCalls(m, s) != [] ==> s.External? && s.etype.Call? && DroppedCalls(m, s) == [m.accepted]
  {
    if s.Dequeue? { assert m.queue[0] in m.queue; }
  }

  lemma {:induction false} ContentAlways(u: Setup, steps: seq<Step>)
    ensures ReplayedIntact(Exec(u, steps), Observe(u, steps))
    decreases |steps|
  {
    hide Next, Finished, DroppedCalls;
    if steps != [] {
      var init := steps[..|steps| - 1];
      ContentAlways(u, init);
      OrderAlways(u, init);
      var m, s := Exec(u, init), steps[|steps| - 1];
      if Enabled(m, s) { ContentStep(m, s, u.enter, Observe(u, init)); }
    }
  }

  /** A handler that asks to postpone an external event gets it back - on the
      postponed list, or at once in the queue after a state change - if and only
      if it is not a call. */
  lemma PostponeKeepsIff(m: Machine, s: Step, enter: bool)
    requires Enabled(m, s) && WellFormed(m) && InOrder(m) && s.External? && !Stops(s) && Postpone in Actions(s.result)
    ensures m.accepted in Pending(Next(m, s, enter)) <==> !s.etype.Call?
  {
    hide Next, Arrivals;
    PendingBefore(m, s);
    PendingAfter(m, s, enter);
    var a, x := Arrivals(m.postponed), TakenArrival(m, s);
    assert a + x + [] == a + x && a + [] + [] == a;
    assert x[0] in x;
    assert forall i :: i in a ==> i < m.accepted;
  }

  // ---------------------------------------------------------------------------
  // State and data
  // ---------------------------------------------------------------------------

  /** The state a step asks for, if any. */
  function AskedState(s: Step): Option<Value>
  {
    if s.ChannelClosed? || !s.result.NextState? then None else Some(s.result.state)
  }

  /** The data a step hands back, if any. */
  function HandedData(s: Step): Option<Value>
  {
    if s.ChannelClosed? || s.result.KeepStateAndData? then None else Some(s.result.data)
  }

  /** `v` is what the last step with a value gives, or `initial` if none has one. */
  ghost predicate LastGiven(steps: seq<Step>, give: Step -> Option<Value>, initial: Value, v: Value)
  {
    || (v == initial && forall k :: 0 <= k < |steps| ==> give(steps[k]) == None)
    || exists j :: 0 <= j < |steps| && give(steps[j]) == Some(v) && forall k :: j < k < |steps| ==> give(steps[k]) == None
  }

  lemma LastGivenSnoc(steps: seq<Step>, s: Step, give: Step -> Option<Value>, initial: Value, v: Value)
    requires LastGiven(steps, give, initial, v)
    ensures LastGiven(steps + [s], give, initial, if give(s).Some? then give(s).value else v)
  {
    var all := steps + [s];
    assert all[|steps|] == s && forall k :: 0 <= k < |steps| ==> all[k] == steps[k];
  }

  lemma ResultKeeps(m: Machine, ev: Queued, r: Transition, enter: bool)
    ensures var m' := HandleResult(m, ev, r, enter);
            && m'.state == (if r.NextState? then r.state else m.state)
            && m'.data == (if r.KeepStateAndData? then m.data else r.data)
            && m'.stopped == (m.stopped || r.Stop? || r.StopAndReply?)
  {
    hide ApplyActions, NextEvents;
    match r
    case NextState(state, data, actions) =>
      ActionsEffect(m.(state := state, data := data, stateTimeout := if m.state != state then None else m.stateTimeout), actions);
    case KeepState(data, actions) => ActionsEffect(m.(data := data), actions);
    case KeepStateAndData(actions) => ActionsEffect(m, actions);
    case Stop(_) =>
    case StopAndReply(_, _) =>
  }

  lemma StepKeeps(m: Machine, s: Step, enter: bool)
    requires Enabled(m, s)
    ensures var m' := Next(m, s, enter);
            && m'.state == (if AskedState(s).Some? then AskedState(s).value else m.state)
            && m'.data == (if HandedData(s).Some? then HandedData(s).value else m.data)
            && (m'.stopped <==> Stops(s))
  {
    if !s.ChannelClosed? {
      hide HandleResult;
      ResultKeeps(AfterTake(m, s), Taken(m, s), s.result, enter);
    }
  }

  /** In every run the state is the one the last `NextState` asked for and the data what
      the last result with data handed back, or those the machine was started with; the
      machine has stopped if and only if its last step stops it, and no earlier one did. */
  lemma {:induction false} StateAndData(u: Setup, steps: seq<Step>)
    requires ValidRun(u, steps)
    ensures var m := Exec(u, steps);
            && LastGiven(steps, AskedState, u.state, m.state)
            && LastGiven(steps, HandedData, u.data, m.data)
            && (m.stopped <==> steps != [] && Stops(steps[|steps| - 1]))
    ensures forall k :: 0 <= k < |steps| - 1 ==> !Stops(steps[k])
    decreases |steps|
  {
    hide ValidRun, Next, LastGiven;
    if steps == [] {
      NothingGiven(u.state, AskedState);
      NothingGiven(u.data, HandedData);
    } else {
      var init, s := steps[..|steps| - 1], steps[|steps| - 1];
      assert steps == init + [s];
      RunPrefix(u, init, s);
      StateAndData(u, init);
      StepKeeps(Exec(u, init), s, u.enter);
      LastGivenSnoc(init, s, AskedState, u.state, Exec(u, init).state);
      LastGivenSnoc(init, s, HandedData, u.data, Exec(u, init).data);
    }
  }

  lemma NothingGiven(v: Value, give: Step -> Option<Value>)
    ensures LastGiven([], give, v, v)
  {
  }

  // ---------------------------------------------------------------------------
  // Scope of postponing and of timeouts
  // ---------------------------------------------------------------------------

  ghost predicate ChangesAt(u: Setup, steps: seq<Step>, k: nat)
    requires k < |steps|
  {
    Changes(Before(u, steps, k), steps[k])
  }

  /** Step `k` handled the event that arrived as number `i` and postponed it. */
  ghost predicate PostponesAt(u: Setup, steps: seq<Step>, k: nat, i: nat)
    requires k < |steps|
  {
    var m := Before(u, steps, k);
    Enabled(m, steps[k]) && Keeps(m, steps[k]) && Taken(m, steps[k]).arrival == Some(i)
  }

  lemma BeforePrefix(u: Setup, steps: seq<Step>, s: Step, k: nat)
    requires k <= |steps|
    ensures Before(u, steps + [s], k) == Before(u, steps, k)
  {
    assert (steps + [s])[..k] == steps[..k];
  }

  lemma BeforeLast(u: Setup, steps: seq<Step>, s: Step)
    ensures Before(u, steps, |steps|) == Exec(u, steps)
    ensures Exec(u, steps + [s]) ==
            if Enabled(Exec(u, steps), s) then Next(Exec(u, steps), s, u.enter) else Exec(u, steps)
  {
    assert steps[..|steps|] == steps;
    assert (steps + [s])[..|steps|] == steps;
  }

  lemma RunPrefix(u: Setup, steps: seq<Step>, s: Step)
    requires ValidRun(u, steps + [s])
    ensures ValidRun(u, steps) && Enabled(Exec(u, steps), s)
    ensures Exec(u, steps + [s]) == Next(Exec(u, steps), s, u.enter)
  {
    hide Exec, Enabled, Next;
    var all := steps + [s];
    forall k | 0 <= k < |steps| ensures Enabled(Before(u, steps, k), steps[k]) {
      BeforePrefix(u, steps, s, k);
      assert Enabled(Before(u, all, k), all[k]);
    }
    BeforePrefix(u, steps, s, |steps|);
    BeforeLast(u, steps, s);
    assert Enabled(Before(u, all, |steps|), all[|steps|]);
  }

  /** A condition on single steps that holds from `from` on still does after one
      more step that meets it. */
  ghost predicate QuietSince(u: Setup, steps: seq<Step>, from: nat)
  {
    forall k :: from <= k < |steps| ==> !ChangesAt(u, steps, k)
  }

  lemma QuietExtends(u: Setup, steps: seq<Step>, s: Step, from: nat)
    requires QuietSince(u, steps, from) && !Changes(Exec(u, steps), s)
    ensures QuietSince(u, steps + [s], from)
  {
    hide Exec, Changes;
    var all := steps + [s];
    forall k | from <= k < |all| ensures !ChangesAt(u, all, k) {
      BeforePrefix(u, steps, s, k);
      if k < |steps| { assert !ChangesAt(u, steps, k); } else { BeforeLast(u, steps, s); }
    }
  }

  lemma PostponedOrigin(m: Machine, s: Step, enter: bool, i: nat)
    requires Enabled(m, s) && WellFormed(m) && i in Arrivals(Next(m, s, enter).postponed)
    ensures !Changes(m, s)
    ensures i in Arrivals(m.postponed) || (Keeps(m, s) && Taken(m, s).arrival == Some(i))
  {
    hide Next, NextEvents;
    if Stops(s) {
      StopQueues(m, s, enter);
    } else {
      StepQueues(m, s, enter);
      TakenWellFormed(m, s);
      var ev := Taken(m, s);
      var kept := if Keeps(m, s) then [ev] else [];
      assert Arrivals([]) == [];
      ArrivalsAppend(m.postponed, kept);
      assert [ev][1..] == [];
    }
  }

  /** Everything on the postponed list was postponed since the last state change. */
  lemma {:induction false} PostponedSinceChange(u: Setup, steps: seq<Step>, i: nat)
    requires ValidRun(u, steps) && i in Arrivals(Exec(u, steps).postponed)
    ensures exists j :: 0 <= j < |steps| && PostponesAt(u, steps, j, i) && QuietSince(u, steps, j)
    decreases |steps|
  {
    hide Next, Keeps, Changes, ChangesAt, ValidRun;
    if steps != [] {
      var init, s := steps[..|steps| - 1], steps[|steps| - 1];
      assert steps == init + [s];
      var m := Exec(u, init);
      RunPrefix(u, init, s);
      OrderAlways(u, init);
      PostponedOrigin(m, s, u.enter, i);
      if i in Arrivals(m.postponed) {
        PostponedSinceChange(u, init, i);
        var j :| 0 <= j < |init| && PostponesAt(u, init, j, i) && QuietSince(u, init, j);
        BeforePrefix(u, init, s, j);
        assert PostponesAt(u, steps, j, i);
        QuietExtends(u, init, s, j);
      } else {
        BeforePrefix(u, init, s, |init|);
        BeforeLast(u, init, s);
        assert PostponesAt(u, steps, |init|, i);
        assert QuietSince(u, init, |init|);
        QuietExtends(u, init, s, |init|);
      }
    }
  }

  // ---------------------------------------------------------------------------
  // Timers
  // ---------------------------------------------------------------------------

  /** What the timer of a kind would fire with, if it is running. */
  function Running(m: Machine, kind: TimeoutKind): Option<Value>
  {
    match kind
    case StateKind => m.stateTimeout
    case EventKind => m.eventTimeout
    case GenericKind(name) => if name in m.generic then Some(m.generic[name]) else None
  }

  /** What one action sets the timer to, if it concerns it. */
  function Touch(a: Action, kind: TimeoutKind): Option<Option<Value>>
  {
    match a
    case SetStateTimeout(_, p) => if kind == StateKind then Some(Some(p)) else None
    case SetEventTimeout(_, p) => if kind == EventKind then Some(Some(p)) else None
    case SetGenericTimeout(name, _, p) => if kind == GenericKind(name) then Some(Some(p)) else None
    case CancelTimeout(k) => if kind == k then Some(None) else None
    case Reply(_, _) => None
    case Postpone => None
    case NextEvent(_) => None
    case Hibernate => None
  }

  /** What the last action that concerns the timer sets it to. */
  function LastTouch(actions: seq<Action>, kind: TimeoutKind): Option<Option<Value>>
  {
    if actions == [] then None else
      var last := Touch(actions[|actions| - 1], kind);
      if last.Some? then last else LastTouch(actions[..|actions| - 1], kind)
  }

  lemma {:induction false} ActionsTimers(m: Machine, actions: seq<Action>, kind: TimeoutKind)
    ensures Running(ApplyActions(m, actions), kind) ==
            match LastTouch(actions, kind) case Some(p) => p case None => Running(m, kind)
    decreases |actions|
  {
    if actions != [] {
      ActionsTimers(m, actions[..|actions| - 1], kind);
    }
  }

  /** The step takes the timer down before its actions run: it is the timer's own firing,
      or leaves the scope of the timer. */
  ghost predicate TakesDown(m: Machine, s: Step, kind: TimeoutKind)
  {
    match kind
    case StateKind => s.FireState? || Changes(m, s)
    case EventKind => s.FireEvent? || s.External?
    case GenericKind(name) => s.FireGeneric? && s.name == name
  }

  /** What the step's actions set the timer to, if they concern it. */
  ghost function Sets(s: Step, kind: TimeoutKind): Option<Option<Value>>
  {
    if Stops(s) then None else LastTouch(Actions(s.result), kind)
  }

  lemma ResultTimer(m: Machine, ev: Queued, r: Transition, enter: bool, kind: TimeoutKind)
    requires !r.Stop? && !r.StopAndReply?
    ensures Running(HandleResult(m, ev, r, enter), kind) ==
            match LastTouch(Actions(r), kind)
            case Some(p) => p
            case None => if kind == StateKind && r.NextState? && r.state != m.state then None else Running(m, kind)
  {
    hide ApplyActions, LastTouch;
    match r
    case NextState(state, data, _) =>
      ActionsTimers(m.(state := state, data := data, stateTimeout := if m.state != state then None else m.stateTimeout),
                    r.actions, kind);
    case KeepState(data, _) => ActionsTimers(m.(data := data), r.actions, kind);
    case KeepStateAndData(_) => ActionsTimers(m, r.actions, kind);
  }

  lemma StepTimer(m: Machine, s: Step, enter: bool, kind: TimeoutKind)
    requires Enabled(m, s)
    ensures Running(Next(m, s, enter), kind) ==
            match Sets(s, kind)
            case Some(p) => p
            case None => if TakesDown(m, s, kind) then None else Running(m, kind)
  {
    if !Stops(s) {
      hide HandleResult, LastTouch;
      ResultTimer(AfterTake(m, s), Taken(m, s), s.result, enter, kind);
    }
  }

  /** Step `j` left the timer set to `p`, and no later step set, cancelled, fired or
      outlived it. */
  ghost predicate ArmedSince(u: Setup, steps: seq<Step>, j: nat, kind: TimeoutKind, p: Value)
  {
    && j < |steps| && Sets(steps[j], kind) == Some(Some(p))
    && forall k :: j < k < |steps| ==> LeftAlone(u, steps, k, kind)
  }

  ghost predicate LeftAlone(u: Setup, steps: seq<Step>, k: nat, kind: TimeoutKind)
    requires k < |steps|
  {
    Sets(steps[k], kind) == None && !TakesDown(Before(u, steps, k), steps[k], kind)
  }

  lemma ArmedExtends(u: Setup, steps: seq<Step>, s: Step, j: nat, kind: TimeoutKind, p: Value)
    requires j < |steps|
    ensures ArmedSince(u, steps + [s], j, kind, p) <==>
              ArmedSince(u, steps, j, kind, p) && Sets(s, kind) == None && !TakesDown(Exec(u, steps), s, kind)
  {
    hide Exec, TakesDown, Sets;
    var all := steps + [s];
    forall k | 0 <= k < |steps| ensures LeftAlone(u, all, k, kind) <==> LeftAlone(u, steps, k, kind) {
      BeforePrefix(u, steps, s, k);
      assert all[k] == steps[k];
    }
    BeforePrefix(u, steps, s, |steps|);
    BeforeLast(u, steps, s);
    assert LeftAlone(u, all, |steps|, kind) <==> Sets(s, kind) == None && !TakesDown(Exec(u, steps), s, kind);
    assert all[j] == steps[j];
    if ArmedSince(u, all, j, kind, p) {
      forall k | j < k < |steps| ensures LeftAlone(u, steps, k, kind) { assert LeftAlone(u, all, k, kind); }
      assert LeftAlone(u, all, |steps|, kind);
    }
    if ArmedSince(u, steps, j, kind, p) && LeftAlone(u, all, |steps|, kind) {
      forall k | j < k < |all| ensures LeftAlone(u, all, k, kind) {
        if k < |steps| { assert LeftAlone(u, steps, k, kind); }
      }
    }
  }

  /** In every run a timer of any kind runs with a payload if and only if some step set it
      so and nothing since then set, cancelled or fired it, or left its scope: for a state
      timeout no state change, for an event timeout no external event. */
  lemma {:induction false} TimerRunsIff(u: Setup, steps: seq<Step>, kind: TimeoutKind, p: Value)
    requires ValidRun(u, steps)
    ensures Running(Exec(u, steps), kind) == Some(p) <==> exists j: nat :: ArmedSince(u, steps, j, kind, p)
    decreases |steps|
  {
    hide Next, ValidRun, Sets, TakesDown, ArmedSince;
    if steps == [] {
      NothingArmed(u, steps, kind, p);
    } else {
      var init, s := steps[..|steps| - 1], steps[|steps| - 1];
      assert steps == init + [s];
      RunPrefix(u, init, s);
      TimerRunsIff(u, init, kind, p);
      StepTimer(Exec(u, init), s, u.enter, kind);
      LastArms(u, init, s, kind, p);
      forall j | 0 <= j < |init|
        ensures ArmedSince(u, steps, j, kind, p) <==>
                  ArmedSince(u, init, j, kind, p) && Sets(s, kind) == None && !TakesDown(Exec(u, init), s, kind)
      { ArmedExtends(u, init, s, j, kind, p); }
      ArmedInRange(u, init, kind, p);
      ArmedInRange(u, steps, kind, p);
    }
  }

  lemma ArmedInRange(u: Setup, steps: seq<Step>, kind: TimeoutKind, p: Value)
    ensures forall j: nat :: ArmedSince(u, steps, j, kind, p) ==> j < |steps|
  {
  }

  lemma NothingArmed(u: Setup, steps: seq<Step>, kind: TimeoutKind, p: Value)
    requires steps == []
    ensures Running(Exec(u, steps), kind) == None && forall j: nat :: !ArmedSince(u, steps, j, kind, p)
  {
  }

  lemma LastArms(u: Setup, steps: seq<Step>, s: Step, kind: TimeoutKind, p: Value)
    ensures ArmedSince(u, steps + [s], |steps|, kind, p) <==> Sets(s, kind) == Some(Some(p))
  {
    hide Sets;
  }

  predicate Fires(s: Step, kind: TimeoutKind)
  {
    match kind
    case StateKind => s.FireState?
    case EventKind => s.FireEvent?
    case GenericKind(name) => s.FireGeneric? && s.name == name
  }

  /** A timeout that fires, of whatever kind, was set by an earlier step with the payload
      it fires with, and nothing since then set, cancelled or fired it, or left its scope. */
  lemma FiredTimeoutInScope(u: Setup, steps: seq<Step>, s: Step, kind: TimeoutKind)
    requires ValidRun(u, steps + [s]) && Fires(s, kind)
    ensures Enabled(Exec(u, steps), s)
    ensures exists j: nat :: ArmedSince(u, steps, j, kind, Taken(Exec(u, steps), s).payload)
    ensures Taken(Exec(u, steps), s).etype == match kind
              case StateKind => StateTimeout
              case EventKind => EventTimeout
              case GenericKind(name) => Timeout(name)
  {
    hide Next, ArmedSince;
    RunPrefix(u, steps, s);
    TimerRunsIff(u, steps, kind, Taken(Exec(u, steps), s).payload);
  }

  /** What can come next in a run: nothing once stopped, a queued event if there is one,
      and otherwise an external event or the firing of a timer that is set and was left
      alone since. */
  lemma NextStepIff(u: Setup, steps: seq<Step>, s: Step, kind: TimeoutKind)
    requires ValidRun(u, steps)
    ensures var m := Exec(u, steps);
            && (m.stopped ==> !Enabled(m, s))
            && (!m.stopped && m.queue != [] ==> (Enabled(m, s) <==> s.Dequeue?))
            && (!m.stopped && m.queue == [] ==>
                  && (s.Dequeue? ==> !Enabled(m, s)) && (s.ChannelClosed? ==> Enabled(m, s))
                  && (s.External? ==> (Enabled(m, s) <==> s.etype.Call? || s.etype.Cast? || s.etype.Info?))
                  && (Fires(s, kind) ==> (Enabled(m, s) <==> exists p, j: nat :: ArmedSince(u, steps, j, kind, p))))
  {
    hide Next, ArmedSince, Exec;
    var m := Exec(u, steps);
    if Fires(s, kind) {
      if Running(m, kind).Some? {
        TimerRunsIff(u, steps, kind, Running(m, kind).value);
      }
      forall p, j: nat | ArmedSince(u, steps, j, kind, p) ensures Running(m, kind) == Some(p) {
        TimerRunsIff(u, steps, kind, p);
      }
    }
  }

  /** With enter events enabled, the first event of all is the enter event of the initial
      state. */
  lemma EnterComesFirst(u: Setup, s: Step)
    requires u.enter && ValidRun(u, [s])
    ensures s.Dequeue? && Enabled(Exec(u, []), s) && Taken(Exec(u, []), s) == Queued(Enter(u.state), Nil, false, None)
  {
    assert [s][..0] == [];
    assert Enabled(Before(u, [s], 0), [s][0]);
  }

  /** With enter events enabled, the first event handled after a state change is
      that change's enter event, before any replayed or new event. */
  lemma EnterComesNext(u: Setup, steps: seq<Step>, s: Step, next: Step)
    requires ValidRun(u, steps + [s] + [next]) && u.enter && Changes(Exec(u, steps), s)
    ensures var m, m' := Exec(u, steps), Exec(u, steps + [s]);
            && Enabled(m', next) && next.Dequeue?
            && Taken(m', next) == Queued(Enter(m.state), Nil, false, None)
  {
    hide ValidRun, NextEvents;
    RunPrefix(u, steps + [s], next);
    RunPrefix(u, steps, s);
    OrderAlways(u, steps);
    hide Next;
    StepQueues(Exec(u, steps), s, u.enter);
  }
}

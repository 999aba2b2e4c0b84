/** The state machine engine: its queues and timers on values, one loop iteration
    at a time, and the mutable `Engine` that computes it in place.

    The user's `handle_event` is arbitrary, so its result is part of each step.
    When a timer fires is left open. External events carry their arrival number;
    the engine itself never looks at it. */
module Statem {
  import opened Values

  datatype EventType =
    | Call(tx: nat)
    | Cast
    | Info
    | StateTimeout
    | Timeout(name: string)
    | EventTimeout
    | Internal
    | Enter(oldState: Value)

  /** An event type without its reply channel. */
  datatype Descriptor =
    | CallD
    | CastD
    | InfoD
    | StateTimeoutD
    | TimeoutD(name: string)
    | EventTimeoutD
    | InternalD
    | EnterD(oldState: Value)

  datatype Queued = Queued(etype: EventType, payload: Value, postponable: bool, arrival: Option<nat>)

  datatype TimeoutKind = StateKind | EventKind | GenericKind(name: string)

  datatype Action =
    | Reply(tx: nat, reply: Value)
    | SetStateTimeout(duration: nat, payload: Value)
    | SetEventTimeout(duration: nat, payload: Value)
    | SetGenericTimeout(name: string, duration: nat, payload: Value)
    | CancelTimeout(kind: TimeoutKind)
    | Postpone
    | NextEvent(payload: Value)
    | Hibernate

  datatype Transition =
    | NextState(state: Value, data: Value, actions: seq<Action>)
    | KeepState(data: Value, actions: seq<Action>)
    | KeepStateAndData(actions: seq<Action>)
    | Stop(data: Value)
    | StopAndReply(data: Value, replies: seq<(nat, Value)>)

  datatype Machine = Machine(
    state: Value,
    data: Value,
    stateTimeout: Option<Value>,
    eventTimeout: Option<Value>,
    generic: map<string, Value>,
    postponed: seq<Queued>,
    queue: seq<Queued>,
    accepted: nat,
    stopped: bool)

  /** One iteration of the engine's loop, with what `handle_event` returned. */
  datatype Step =
    | Dequeue(result: Transition)
    | FireState(result: Transition)
    | FireEvent(result: Transition)
    | FireGeneric(name: string, result: Transition)
    | External(etype: EventType, payload: Value, result: Transition)
    | ChannelClosed

  // ---------------------------------------------------------------------------
  // Event types
  // ---------------------------------------------------------------------------

  function SplitEventType(e: EventType): (r: (Descriptor, Option<nat>))
  {
    match e
    case Call(tx) => (CallD, Some(tx))
    case Cast => (CastD, None)
    case Info => (InfoD, None)
    case StateTimeout => (StateTimeoutD, None)
    case Timeout(name) => (TimeoutD(name), None)
    case EventTimeout => (EventTimeoutD, None)
    case Internal => (InternalD, None)
    case Enter(oldState) => (EnterD(oldState), None)
  }

  function RebuildEventType(d: Descriptor, tx: Option<nat>): (e: EventType)
    requires d.CallD? ==> tx.Some?
    ensures SplitEventType(e) == (d, if d.CallD? then tx else None)
  {
    match d
    case CallD => Call(tx.value)
    case CastD => Cast
    case InfoD => Info
    case StateTimeoutD => StateTimeout
    case TimeoutD(name) => Timeout(name)
    case EventTimeoutD => EventTimeout
    case InternalD => Internal
    case EnterD(oldState) => Enter(oldState)
  }

  // ---------------------------------------------------------------------------
  // Applying a result
  // ---------------------------------------------------------------------------

  function ApplyAction(m: Machine, a: Action): Machine
  {
    match a
    case SetStateTimeout(_, payload) => m.(stateTimeout := Some(payload))
    case SetEventTimeout(_, payload) => m.(eventTimeout := Some(payload))
    case SetGenericTimeout(name, _, payload) => m.(generic := m.generic[name := payload])
    case CancelTimeout(StateKind) => m.(stateTimeout := None)
    case CancelTimeout(EventKind) => m.(eventTimeout := None)
    case CancelTimeout(GenericKind(name)) => m.(generic := m.generic - {name})
    case NextEvent(payload) => m.(queue := m.queue + [Queued(Internal, payload, false, None)])
    case Reply(_, _) => m
    case Postpone => m
    case Hibernate => m
  }

  function ApplyActions(m: Machine, actions: seq<Action>): Machine
  {
    if actions == [] then m
    else ApplyAction(ApplyActions(m, actions[..|actions| - 1]), actions[|actions| - 1])
  }

  function Actions(r: Transition): seq<Action>
  {
    if r.Stop? || r.StopAndReply? then [] else r.actions
  }

  /** A postponable event joins the postponed list, unless it is a call: its
      reply channel was consumed by `handle_event`. */
  function Postponed(m: Machine, ev: Queued, actions: seq<Action>): Machine
  {
    var (d, _) := SplitEventType(ev.etype);
    if Postpone in actions && ev.postponable && !d.CallD? then
      m.(postponed := m.postponed + [Queued(RebuildEventType(d, None), ev.payload, true, ev.arrival)])
    else m
  }

  /** On a state change the postponed events go to the front of the queue, behind
      the new state's enter event. */
  function Replay(m: Machine, oldState: Value, enter: bool): Machine
  {
    m.(postponed := [],
       queue := (if enter then [Queued(Enter(oldState), Nil, false, None)] else []) + m.postponed + m.queue)
  }

  function HandleResult(m: Machine, ev: Queued, r: Transition, enter: bool): Machine
  {
    match r
    case NextState(state, data, actions) =>
      var changed := m.state != state;
      var moved := m.(state := state, data := data, stateTimeout := if changed then None else m.stateTimeout);
      var done := Postponed(ApplyActions(moved, actions), ev, actions);
      if changed then Replay(done, m.state, enter) else done
    case KeepState(data, actions) => Postponed(ApplyActions(m.(data := data), actions), ev, actions)
    case KeepStateAndData(actions) => Postponed(ApplyActions(m, actions), ev, actions)
    case Stop(data) => m.(data := data, stopped := true)
    case StopAndReply(data, _) => m.(data := data, stopped := true)
  }

  // ---------------------------------------------------------------------------
  // One iteration
  // ---------------------------------------------------------------------------

  predicate Enabled(m: Machine, s: Step)
  {
    && !m.stopped
    && match s
       case Dequeue(_) => m.queue != []
       case FireState(_) => m.queue == [] && m.stateTimeout.Some?
       case FireEvent(_) => m.queue == [] && m.eventTimeout.Some?
       case FireGeneric(name, _) => m.queue == [] && name in m.generic
       case External(etype, _, _) => m.queue == [] && (etype.Call? || etype.Cast? || etype.Info?)
       case ChannelClosed => m.queue == []
  }

  /** The event handed to `handle_event`. */
  function Taken(m: Machine, s: Step): Queued
    requires Enabled(m, s) && !s.ChannelClosed?
  {
    match s
    case Dequeue(_) => m.queue[0]
    case FireState(_) => Queued(StateTimeout, m.stateTimeout.value, false, None)
    case FireEvent(_) => Queued(EventTimeout, m.eventTimeout.value, false, None)
    case FireGeneric(name, _) => Queued(Timeout(name), m.generic[name], false, None)
    case External(etype, payload, _) => Queued(etype, payload, true, Some(m.accepted))
  }

  function AfterTake(m: Machine, s: Step): Machine
    requires Enabled(m, s) && !s.ChannelClosed?
  {
    match s
    case Dequeue(_) => m.(queue := m.queue[1..])
    case FireState(_) => m.(stateTimeout := None)
    case FireEvent(_) => m.(eventTimeout := None)
    case FireGeneric(name, _) => m.(generic := m.generic - {name})
    case External(_, _, _) => m.(eventTimeout := None, accepted := m.accepted + 1)
  }

  function Next(m: Machine, s: Step, enter: bool): Machine
    requires Enabled(m, s)
  {
    if s.ChannelClosed? then m.(stopped := true)
    else HandleResult(AfterTake(m, s), Taken(m, s), s.result, enter)
  }

  function Start(state: Value, data: Value, enter: bool): Machine
  {
    Machine(state, data, None, None, map[], [],
            if enter then [Queued(Enter(state), Nil, false, None)] else [], 0, false)
  }

  // ---------------------------------------------------------------------------
  // The engine
  // ---------------------------------------------------------------------------

  class Engine {
    const enter: bool
    var state: Value
    var data: Value
    var stateTimeout: Option<Value>
    var eventTimeout: Option<Value>
    var generic: map<string, Value>
    var postponed: seq<Queued>
    var queue: seq<Queued>
    var accepted: nat
    var stopped: bool

    ghost function View(): Machine
      reads this
    {
      Machine(state, data, stateTimeout, eventTimeout, generic, postponed, queue, accepted, stopped)
    }

    constructor (state: Value, data: Value, enter: bool)
      ensures View() == Start(state, data, enter) && this.enter == enter
    {
      this.enter, this.state, this.data := enter, state, data;
      stateTimeout, eventTimeout, generic := None, None, map[];
      postponed, accepted, stopped := [], 0, false;
      queue := if enter then [Queued(Enter(state), Nil, false, None)] else [];
    }

    /** Run the actions in order; reports whether one of them was `Postpone`. */
    method ProcessActions(actions: seq<Action>) returns (shouldPostpone: bool)
      modifies this`stateTimeout, this`eventTimeout, this`generic, this`queue
      ensures View() == ApplyActions(old(View()), actions)
      ensures shouldPostpone <==> Postpone in actions
    {
      shouldPostpone := false;
      ghost var before := View();
      for i := 0 to |actions|
        invariant View() == ApplyActions(before, actions[..i])
        invariant shouldPostpone <==> Postpone in actions[..i]
      {
        assert actions[..i + 1][..i] == actions[..i];
        match actions[i]
        case SetStateTimeout(_, payload) => stateTimeout := Some(payload);
        case SetEventTimeout(_, payload) => eventTimeout := Some(payload);
        case SetGenericTimeout(name, _, payload) => generic := generic[name := payload];
        case CancelTimeout(StateKind) => stateTimeout := None;
        case CancelTimeout(EventKind) => eventTimeout := None;
        case CancelTimeout(GenericKind(name)) => generic := generic - {name};
        case Postpone => shouldPostpone := true;
        case NextEvent(payload) => queue := queue + [Queued(Internal, payload, false, None)];
        case Reply(_, _) =>
        case Hibernate =>
      }
      assert actions[..|actions|] == actions;
    }

    /** Run the actions and postpone the event if they say so. */
    method Settle(ev: Queued, actions: seq<Action>)
      modifies this`stateTimeout, this`eventTimeout, this`generic, this`queue, this`postponed
      ensures View() == Postponed(ApplyActions(old(View()), actions), ev, actions)
    {
      var (descriptor, _) := SplitEventType(ev.etype);
      var shouldPostpone := ProcessActions(actions);
      if shouldPostpone && ev.postponable && !descriptor.CallD? {
        postponed := postponed + [Queued(RebuildEventType(descriptor, None), ev.payload, true, ev.arrival)];
      }
    }

    method ApplyResult(ev: Queued, r: Transition) returns (stop: bool)
      requires !stopped
      modifies this
      ensures View() == HandleResult(old(View()), ev, r, enter)
      ensures state == (if r.NextState? then r.state else old(state))
      ensures data == (if r.KeepStateAndData? then old(data) else r.data)
      ensures stop == stopped == (r.Stop? || r.StopAndReply?)
    {
      hide ApplyActions, Postponed;
      match r {
        case NextState(newState, newData, actions) =>
          var changed, oldState := state != newState, state;
          state, data := newState, newData;
          if changed { stateTimeout := None; }
          Settle(ev, actions);
          if changed {
            var replayed, existing := postponed, queue;
            postponed := [];
            queue := replayed + existing;
            if enter {
              queue := [Queued(Enter(oldState), Nil, false, None)] + queue;
              assert queue == [Queued(Enter(oldState), Nil, false, None)] + replayed + existing;
            } else {
              assert queue == [] + replayed + existing;
            }
          }
        case KeepState(newData, actions) =>
          data := newData;
          Settle(ev, actions);
        case KeepStateAndData(actions) =>
          Settle(ev, actions);
        case Stop(newData) =>
          data, stopped := newData, true;
        case StopAndReply(newData, _) =>
          data, stopped := newData, true;
      }
      stop := stopped;
    }

    /** One iteration of the loop; the return value says whether it ends. */
    method Advance(s: Step) returns (stop: bool)
      requires Enabled(View(), s)
      modifies this
      ensures View() == Next(old(View()), s, enter)
      ensures stop == stopped
    {
      if s.ChannelClosed? {
        stopped := true;
        return true;
      }
      var event;
      match s {
        case Dequeue(_) =>
          event := queue[0];
          queue := queue[1..];
        case FireState(_) =>
          event := Queued(StateTimeout, stateTimeout.value, false, None);
          stateTimeout := None;
        case FireEvent(_) =>
          event := Queued(EventTimeout, eventTimeout.value, false, None);
          eventTimeout := None;
        case FireGeneric(name, _) =>
          event := Queued(Timeout(name), generic[name], false, None);
          generic := generic - {name};
        case External(etype, payload, _) =>
          eventTimeout := None;
          event := Queued(etype, payload, true, Some(accepted));
          accepted := accepted + 1;
      }
      stop := ApplyResult(event, s.result);
    }
  }
}

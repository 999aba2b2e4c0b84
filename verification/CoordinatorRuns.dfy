/** Tasks submitted to a coordinator: over any interleaving of submits, replies,
    losses and failovers each is answered once. A collector and the completion it
    reports are one item; completions may be handled in any order, which covers the
    order of the channel. Tasks are numbered as they are submitted. */
module CoordinatorRuns {
  import opened Values
  import opened Coordinator
  import opened CoordinatorChoice

  datatype Stage = Waiting | Answered(elapsed: nat) | FailedOver | Retired

  /** A dispatched task whose outcome the scheduler has not processed yet. */
  datatype Item = Item(task: nat, pid: Pid, remaining: nat, stage: Stage)

  datatype Answer = Result | NoneLeft | WorkerDied | TimedOut

  datatype Sent = Sent(task: nat, answer: Answer)

  /** `tried[t]` lists the workers task `t` was sent to, `wasted[t]` counts those dropped
      on the way although alive, `allowed[t]` is the number of workers when it was
      submitted, `registered` all processes ever registered. */
  datatype System = System(
    workers: seq<Worker>,
    nextId: nat,
    maxWorkers: nat,
    items: seq<Item>,
    replies: seq<Sent>,
    tried: seq<seq<Pid>>,
    wasted: seq<nat>,
    allowed: seq<nat>,
    registered: set<Pid>)

  datatype Action =
    | Register(pid: Pid)
    | Unregister(id: WorkerId)
    | Submit(live: set<Pid>, routable: set<Pid>)
    | Reply(k: nat, elapsed: nat)
    | Lose(k: nat, died: bool)
    | Handle(k: nat, live: set<Pid>, routable: set<Pid>)

  function FindId(ws: seq<Worker>, id: WorkerId): (i: nat)
    ensures i <= |ws| && (i < |ws| ==> ws[i].id == id)
  {
    if ws == [] || ws[0].id == id then 0 else 1 + FindId(ws[1..], id)
  }

  function Start(maxWorkers: nat): System
  {
    System([], 0, maxWorkers, [], [], [], [], [], {})
  }

  function Place(s: System, task: nat, live: set<Pid>, routable: set<Pid>, attempts: nat): System
    requires task < |s.tried|
  {
    var (ws, target) := Dispatch(s.workers, live, routable, attempts);
    Landed(Charge(s, task, |Unreached(s.workers, ws, live)|).(workers := ws), task, target)
  }

  function Charge(s: System, task: nat, n: nat): System
  {
    if task < |s.wasted| then s.(wasted := s.wasted[task := s.wasted[task] + n]) else s
  }

  function Landed(s: System, task: nat, target: Target): System
    requires task < |s.tried|
  {
    match target
    case NoWorkers => s.(replies := s.replies + [Sent(task, NoneLeft)])
    case SentTo(pid, remaining) =>
      s.(items := s.items + [Item(task, pid, remaining, Waiting)], tried := s.tried[task := s.tried[task] + [pid]])
  }

  function Drop<T>(s: seq<T>, k: nat): seq<T>
    requires k < |s|
  {
    s[..k] + s[k + 1..]
  }

  function Resolve(s: System, k: nat, stage: Stage): System
    requires k < |s.items|
  {
    s.(items := s.items[k := s.items[k].(stage := stage)])
  }

  function Apply(s: System, a: Action): System
  {
    match a
    case Register(pid) =>
      if s.maxWorkers > 0 && |s.workers| >= s.maxWorkers then s
      else s.(workers := s.workers + [Worker(s.nextId + 1, pid, 0, 0, 0)], nextId := s.nextId + 1,
              registered := s.registered + {pid})
    case Unregister(id) =>
      var i := FindId(s.workers, id);
      if i < |s.workers| then s.(workers := SwapRemove(s.workers, i)) else s
    case Submit(live, routable) =>
      Place(Opened(s), |s.tried|, live, routable, |s.workers|)
    case Reply(k, elapsed) =>
      if k < |s.items| && s.items[k].stage == Waiting
      then Resolve(s, k, Answered(elapsed)).(replies := s.replies + [Sent(s.items[k].task, Result)]) else s
    case Lose(k, died) =>
      if k < |s.items| && s.items[k].stage == Waiting then
        if s.items[k].remaining == 0
        then Resolve(s, k, Retired).(replies := s.replies + [Sent(s.items[k].task, if died then WorkerDied else TimedOut)])
        else Resolve(s, k, FailedOver)
      else s
    case Handle(k, live, routable) =>
      if k >= |s.items| then s else
        var it := s.items[k];
        var rest := s.(items := Drop(s.items, k));
        match it.stage
        case Waiting => s
        case Answered(elapsed) => rest.(workers := Complete(s.workers, it.pid, elapsed))
        case Retired => rest.(workers := Retire(s.workers, it.pid))
        case FailedOver =>
          if it.task < |s.tried|
          then Place(rest.(workers := Retire(s.workers, it.pid)), it.task, live, routable, it.remaining) else s
  }

  /** A new task, allowed as many attempts as there are workers. */
  function Opened(s: System): System
  {
    s.(tried := s.tried + [[]], wasted := s.wasted + [0], allowed := s.allowed + [|s.workers|])
  }

  function Exec(maxWorkers: nat, actions: seq<Action>): System
  {
    if actions == [] then Start(maxWorkers)
    else Apply(Exec(maxWorkers, actions[..|actions| - 1]), actions[|actions| - 1])
  }

  // ---------------------------------------------------------------------------
  // Counting
  // ---------------------------------------------------------------------------

  ghost function Count<T>(s: seq<T>, f: T -> bool): nat
  {
    if s == [] then 0 else Count(s[..|s| - 1], f) + if f(s[|s| - 1]) then 1 else 0
  }

  function One(b: bool): nat
  {
    if b then 1 else 0
  }

  lemma CountSnoc<T>(s: seq<T>, x: T, f: T -> bool)
    ensures Count(s + [x], f) == Count(s, f) + One(f(x))
  {
    assert (s + [x])[..|s|] == s;
  }

  lemma {:induction false} CountUpdate<T>(s: seq<T>, k: nat, x: T, f: T -> bool)
    requires k < |s|
    ensures Count(s[k := x], f) + One(f(s[k])) == Count(s, f) + One(f(x))
    decreases |s|
  {
    var n := |s| - 1;
    if k < n {
      assert s[k := x][..n] == s[..n][k := x];
      CountUpdate(s[..n], k, x, f);
    } else {
      assert s[k := x][..n] == s[..n];
    }
  }

  lemma {:induction false} CountDrop<T>(s: seq<T>, k: nat, f: T -> bool)
    requires k < |s|
    ensures Count(Drop(s, k), f) + One(f(s[k])) == Count(s, f)
    decreases |s|
  {
    var n := |s| - 1;
    if k < n {
      assert Drop(s, k) == Drop(s[..n], k) + [s[n]];
      CountDrop(s[..n], k, f);
      CountSnoc(Drop(s[..n], k), s[n], f);
    } else {
      assert Drop(s, k) == s[..n];
    }
  }

  lemma {:induction false} CountNone<T>(s: seq<T>, f: T -> bool)
    requires forall i :: 0 <= i < |s| ==> !f(s[i])
    ensures Count(s, f) == 0
    decreases |s|
  {
    if s != [] { CountNone(s[..|s| - 1], f); }
  }

  predicate Holds(it: Item)
  {
    it.stage == Waiting || it.stage == FailedOver
  }

  /** Items that still owe task `t` an answer. */
  ghost function Owing(t: nat): Item -> bool
  {
    (it: Item) => it.task == t && Holds(it)
  }

  ghost function AnswersTo(t: nat): Sent -> bool
  {
    (r: Sent) => r.task == t
  }

  ghost function On(pid: Pid): Item -> bool
  {
    (it: Item) => it.pid == pid
  }

  // ---------------------------------------------------------------------------
  // Each task is answered once
  // ---------------------------------------------------------------------------

  /** Answers sent for `t` plus items that owe one. */
  ghost function Tokens(s: System, t: nat): nat
  {
    Count(s.items, Owing(t)) + Count(s.replies, AnswersTo(t))
  }

  ghost predicate Bounded(s: System)
  {
    && |s.allowed| == |s.tried| == |s.wasted|
    && (forall t :: 0 <= t < |s.tried| ==> |s.tried[t]| + s.wasted[t] <= s.allowed[t])
    && (forall k :: 0 <= k < |s.items| ==> s.items[k].task < |s.tried| && WithinBudget(s, s.items[k]))
    && (forall k :: 0 <= k < |s.replies| ==> s.replies[k].task < |s.tried| && AllUsed(s, s.replies[k]))
  }

  /** The attempts of a task that is owed an answer: sent, wasted, or left. */
  ghost predicate WithinBudget(s: System, it: Item)
  {
    it.task < |s.tried| == |s.allowed| == |s.wasted| && Holds(it) ==>
      && |s.tried[it.task]| + s.wasted[it.task] + it.remaining == s.allowed[it.task]
      && (it.stage == FailedOver ==> it.remaining > 0)
  }

  /** A task that failed for good has used all its attempts. */
  ghost predicate AllUsed(s: System, r: Sent)
  {
    r.task < |s.tried| == |s.allowed| == |s.wasted| && (r.answer == WorkerDied || r.answer == TimedOut) ==>
      |s.tried[r.task]| + s.wasted[r.task] == s.allowed[r.task]
  }

  /** Every submitted task has exactly one token, except the one in hand. */
  ghost predicate OneToken(s: System, hand: Option<nat>)
  {
    forall t :: 0 <= t < |s.tried| ==> Tokens(s, t) == One(hand != Some(t))
  }

  lemma LandedOneToken(s: System, task: nat, target: Target)
    requires task < |s.tried| && OneToken(s, Some(task))
    ensures OneToken(Landed(s, task, target), None)
  {
    hide Count;
    var s' := Landed(s, task, target);
    forall t | 0 <= t < |s'.tried| ensures Tokens(s', t) == 1 {
      assert Tokens(s, t) == One(Some(task) != Some(t));
      match target
      case NoWorkers => CountSnoc(s.replies, Sent(task, NoneLeft), AnswersTo(t));
      case SentTo(pid, remaining) => CountSnoc(s.items, Item(task, pid, remaining, Waiting), Owing(t));
    }
  }

  lemma LandedBounded(s: System, task: nat, target: Target)
    requires Bounded(s) && task < |s.tried| && Tokens(s, task) == 0
    requires target.SentTo? ==> |s.tried[task]| + s.wasted[task] + 1 + target.remaining == s.allowed[task]
    ensures Bounded(Landed(s, task, target))
  {
    hide Count;
    var s' := Landed(s, task, target);
    forall k | 0 <= k < |s'.items| ensures s'.items[k].task < |s'.tried| && WithinBudget(s', s'.items[k]) {
      if k < |s.items| {
        assert s'.items[k] == s.items[k];
        if s.items[k].task == task && Holds(s.items[k]) { OwingCounted(s.items, k, task); }
        assert WithinBudget(s, s.items[k]);
      }
    }
    forall k | 0 <= k < |s'.replies| ensures s'.replies[k].task < |s'.tried| && AllUsed(s', s'.replies[k]) {
      if k < |s.replies| {
        assert s'.replies[k] == s.replies[k] && AllUsed(s, s.replies[k]);
        if s.replies[k].task == task { AnswerCounted(s.replies, k); }
      }
    }
  }

  /** Attempts wasted on the task in hand are charged to it alone. */
  lemma ChargeBounded(s: System, task: nat, n: nat)
    requires Bounded(s) && task < |s.tried| && Tokens(s, task) == 0 && |s.tried[task]| + s.wasted[task] + n <= s.allowed[task]
    ensures Bounded(Charge(s, task, n))
  {
    hide Count;
    var s' := Charge(s, task, n);
    forall k | 0 <= k < |s.items| ensures s'.items[k].task < |s'.tried| && WithinBudget(s', s'.items[k]) {
      assert WithinBudget(s, s.items[k]);
      if s.items[k].task == task && Holds(s.items[k]) { OwingCounted(s.items, k, task); }
    }
    forall k | 0 <= k < |s.replies| ensures s'.replies[k].task < |s'.tried| && AllUsed(s', s'.replies[k]) {
      assert AllUsed(s, s.replies[k]);
      if s.replies[k].task == task { AnswerCounted(s.replies, k); }
    }
  }

  lemma {:induction false} AnswerCounted(replies: seq<Sent>, k: nat)
    requires k < |replies|
    ensures Count(replies, AnswersTo(replies[k].task)) > 0
  {
    CountDrop(replies, k, AnswersTo(replies[k].task));
  }

  lemma {:induction false} OwingCounted(items: seq<Item>, k: nat, t: nat)
    requires k < |items| && items[k].task == t && Holds(items[k])
    ensures Count(items, Owing(t)) > 0
  {
    CountDrop(items, k, Owing(t));
  }

  /** Placing the task in hand gives it a token again and stays within its budget. */
  lemma PlaceAnswersOnce(s: System, task: nat, live: set<Pid>, routable: set<Pid>, attempts: nat)
    requires Bounded(s) && task < |s.tried| && OneToken(s, Some(task))
    requires |s.tried[task]| + s.wasted[task] + attempts == s.allowed[task]
    ensures var s' := Place(s, task, live, routable, attempts); Bounded(s') && OneToken(s', None)
  {
    hide Dispatch, Landed, Unreached, Count;
    var (ws, target) := Dispatch(s.workers, live, routable, attempts);
    DispatchSpends(s.workers, live, routable, attempts);
    var n := |Unreached(s.workers, ws, live)|;
    var s1 := Charge(s, task, n).(workers := ws);
    assert Tokens(s, task) == 0;
    assert OneToken(s1, Some(task)) by {
      forall t | 0 <= t < |s1.tried| ensures Tokens(s1, t) == One(Some(task) != Some(t)) {
        assert Tokens(s1, t) == Tokens(s, t);
      }
    }
    assert Tokens(s1, task) == 0;
    assert Bounded(s1) by {
      ChargeBounded(s, task, n);
      SameBounded(Charge(s, task, n), s1);
    }
    LandedOneToken(s1, task, target);
    LandedBounded(s1, task, target);
  }

  lemma SameBounded(s: System, s': System)
    requires Bounded(s) && s'.items == s.items && s'.replies == s.replies
    requires s'.tried == s.tried && s'.allowed == s.allowed && s'.wasted == s.wasted
    ensures Bounded(s')
  {
    forall k | 0 <= k < |s'.items| ensures WithinBudget(s', s'.items[k]) { assert WithinBudget(s, s.items[k]); }
    forall k | 0 <= k < |s'.replies| ensures AllUsed(s', s'.replies[k]) { assert AllUsed(s, s.replies[k]); }
  }

  lemma SubmitAnswersOnce(s: System, live: set<Pid>, routable: set<Pid>)
    requires Bounded(s) && OneToken(s, None)
    ensures var s' := Apply(s, Submit(live, routable)); Bounded(s') && OneToken(s', None)
  {
    hide Place;
    var t0 := |s.tried|;
    var s1 := Opened(s);
    assert Bounded(s1) by {
      forall k | 0 <= k < |s1.items| ensures s1.items[k].task < |s1.tried| && WithinBudget(s1, s1.items[k]) {
        assert WithinBudget(s, s.items[k]);
      }
      forall k | 0 <= k < |s1.replies| ensures s1.replies[k].task < |s1.tried| && AllUsed(s1, s1.replies[k]) {
        assert AllUsed(s, s.replies[k]);
      }
    }
    forall t | 0 <= t < |s1.tried| ensures Tokens(s1, t) == One(Some(t0) != Some(t)) {
      if t < t0 {
        assert Tokens(s, t) == 1;
      } else {
        CountNone(s.items, Owing(t));
        CountNone(s.replies, AnswersTo(t));
      }
    }
    PlaceAnswersOnce(s1, t0, live, routable, |s.workers|);
  }

  /** Resolving a waiting item moves its token to an answer, or keeps it. */
  lemma ResolveOneToken(s: System, k: nat, stage: Stage, answer: Answer)
    requires Bounded(s) && OneToken(s, None) && k < |s.items| && s.items[k].stage == Waiting && stage != Waiting
    requires stage == FailedOver ==> s.items[k].remaining > 0
    requires answer == WorkerDied || answer == TimedOut ==> stage == FailedOver || s.items[k].remaining == 0
    ensures var s' := Resolve(s, k, stage);
            var s'' := if stage == FailedOver then s' else s'.(replies := s.replies + [Sent(s.items[k].task, answer)]);
            Bounded(s'') && OneToken(s'', None)
  {
    var it := s.items[k];
    var s' := Resolve(s, k, stage);
    var s'' := if stage == FailedOver then s' else s'.(replies := s.replies + [Sent(it.task, answer)]);
    forall t | 0 <= t < |s.tried| ensures Tokens(s'', t) == 1 {
      assert Tokens(s, t) == 1;
      CountUpdate(s.items, k, it.(stage := stage), Owing(t));
      CountSnoc(s.replies, Sent(it.task, answer), AnswersTo(t));
    }
    assert WithinBudget(s, it);
    forall j | 0 <= j < |s''.items| ensures s''.items[j].task < |s''.tried| && WithinBudget(s'', s''.items[j]) {
      assert WithinBudget(s, s.items[j]);
    }
    forall j | 0 <= j < |s''.replies| ensures s''.replies[j].task < |s''.tried| && AllUsed(s'', s''.replies[j]) {
      if j < |s.replies| { assert AllUsed(s, s.replies[j]); }
    }
  }

  /** Taking an item out leaves its task in hand if it still owed an answer. */
  lemma DropOneToken(s: System, k: nat, ws: seq<Worker>)
    requires Bounded(s) && OneToken(s, None) && k < |s.items|
    ensures var s' := s.(items := Drop(s.items, k), workers := ws);
            Bounded(s') && OneToken(s', if Holds(s.items[k]) then Some(s.items[k].task) else None)
  {
    var it := s.items[k];
    var s' := s.(items := Drop(s.items, k), workers := ws);
    forall t | 0 <= t < |s.tried|
      ensures Tokens(s', t) == One((if Holds(it) then Some(it.task) else None) != Some(t))
    {
      assert Tokens(s, t) == 1;
      CountDrop(s.items, k, Owing(t));
    }
    forall j | 0 <= j < |s'.items| ensures s'.items[j].task < |s'.tried| && WithinBudget(s', s'.items[j]) {
      assert WithinBudget(s, s.items[if j < k then j else j + 1]);
    }
    forall j | 0 <= j < |s'.replies| ensures AllUsed(s', s'.replies[j]) { assert AllUsed(s, s.replies[j]); }
  }

  lemma HandleAnswersOnce(s: System, k: nat, live: set<Pid>, routable: set<Pid>)
    requires Bounded(s) && OneToken(s, None)
    ensures var s' := Apply(s, Handle(k, live, routable)); Bounded(s') && OneToken(s', None)
  {
    if k < |s.items| && s.items[k].stage != Waiting {
      hide OneToken, Place, Retire, Complete, Drop;
      var it := s.items[k];
      assert WithinBudget(s, it);
      match it.stage
      case Answered(elapsed) => DropOneToken(s, k, Complete(s.workers, it.pid, elapsed));
      case Retired => DropOneToken(s, k, Retire(s.workers, it.pid));
      case FailedOver =>
        DropOneToken(s, k, Retire(s.workers, it.pid));
        var s1 := s.(items := Drop(s.items, k), workers := Retire(s.workers, it.pid));
        PlaceAnswersOnce(s1, it.task, live, routable, it.remaining);
    }
  }

  lemma WorkersDoNotMatter(s: System, s': System)
    requires Bounded(s) && OneToken(s, None)
    requires s'.items == s.items && s'.replies == s.replies
    requires s'.tried == s.tried && s'.allowed == s.allowed && s'.wasted == s.wasted
    ensures Bounded(s') && OneToken(s', None)
  {
    forall t | 0 <= t < |s'.tried| ensures Tokens(s', t) == 1 { assert Tokens(s, t) == 1; }
    SameBounded(s, s');
  }

  lemma ApplyAnswersOnce(s: System, a: Action)
    requires Bounded(s) && OneToken(s, None)
    ensures Bounded(Apply(s, a)) && OneToken(Apply(s, a), None)
  {
    hide Bounded, OneToken;
    match a
    case Register(pid) => WorkersDoNotMatter(s, Apply(s, a));
    case Unregister(id) => WorkersDoNotMatter(s, Apply(s, a));
    case Submit(live, routable) => SubmitAnswersOnce(s, live, routable);
    case Reply(k, elapsed) =>
      if k < |s.items| && s.items[k].stage == Waiting { ResolveOneToken(s, k, Answered(elapsed), Result); }
    case Lose(k, died) =>
      if k < |s.items| && s.items[k].stage == Waiting {
        ResolveOneToken(s, k, if s.items[k].remaining == 0 then Retired else FailedOver, if died then WorkerDied else TimedOut);
      }
    case Handle(k, live, routable) => HandleAnswersOnce(s, k, live, routable);
  }

  /** In every run, a submitted task has at most one answer, exactly one once no item
      owes it any, and was sent to at most as many workers as there were at submit. */
  lemma {:induction false} AnsweredOnce(maxWorkers: nat, actions: seq<Action>)
    ensures var s := Exec(maxWorkers, actions);
            && Bounded(s) && OneToken(s, None)
            && forall t :: 0 <= t < |s.tried| ==>
                 && Count(s.replies, AnswersTo(t)) <= 1
                 && (Count(s.items, Owing(t)) == 0 <==> Count(s.replies, AnswersTo(t)) == 1)
                 && |s.tried[t]| <= s.allowed[t]
    decreases |actions|
  {
    if actions != [] {
      AnsweredOnce(maxWorkers, actions[..|actions| - 1]);
      ApplyAnswersOnce(Exec(maxWorkers, actions[..|actions| - 1]), actions[|actions| - 1]);
    }
    var s := Exec(maxWorkers, actions);
    forall t | 0 <= t < |s.tried|
      ensures && Count(s.replies, AnswersTo(t)) <= 1
              && (Count(s.items, Owing(t)) == 0 <==> Count(s.replies, AnswersTo(t)) == 1)
    { assert Tokens(s, t) == 1; }
  }

  // ---------------------------------------------------------------------------
  // Failover
  // ---------------------------------------------------------------------------

  /** Every process found alive while a task was dispatched could be reached. */
  ghost predicate AlwaysReachable(actions: seq<Action>)
  {
    forall i :: 0 <= i < |actions| ==> (actions[i].Submit? || actions[i].Handle? ==> actions[i].live <= actions[i].routable)
  }

  lemma PlaceWastes(s: System, task: nat, live: set<Pid>, routable: set<Pid>, attempts: nat)
    requires task < |s.tried| && live <= routable
    ensures Place(s, task, live, routable, attempts).wasted == s.wasted
  {
    hide Dispatch;
    DispatchSpends(s.workers, live, routable, attempts);
    var (ws, target) := Dispatch(s.workers, live, routable, attempts);
    assert forall p :: p in Unreached(s.workers, ws, live) ==> p in routable;
    assert Unreached(s.workers, ws, live) == {};
  }

  ghost predicate Unwasted(s: System)
  {
    forall t :: 0 <= t < |s.wasted| ==> s.wasted[t] == 0
  }

  lemma StepWastes(s: System, a: Action)
    requires a.Submit? || a.Handle? ==> a.live <= a.routable
    requires Unwasted(s)
    ensures Unwasted(Apply(s, a))
  {
    hide Place, Retire, Complete, Drop;
    match a
    case Register(_) =>
    case Unregister(_) =>
    case Reply(_, _) =>
    case Lose(_, _) =>
    case Submit(live, routable) => PlaceWastes(Opened(s), |s.tried|, live, routable, |s.workers|);
    case Handle(k, live, routable) =>
      if k < |s.items| && s.items[k].stage == FailedOver && s.items[k].task < |s.tried| {
        var it := s.items[k];
        PlaceWastes(s.(items := Drop(s.items, k), workers := Retire(s.workers, it.pid)), it.task, live, routable, it.remaining);
      }
  }

  lemma {:induction false} NothingWasted(maxWorkers: nat, actions: seq<Action>)
    requires AlwaysReachable(actions)
    ensures Unwasted(Exec(maxWorkers, actions))
    decreases |actions|
  {
    hide Apply, Unwasted, AlwaysReachable;
    if actions == [] {
      FreshUnwasted(maxWorkers);
    } else {
      var n := |actions| - 1;
      ReachableBefore(actions);
      NothingWasted(maxWorkers, actions[..n]);
      StepWastes(Exec(maxWorkers, actions[..n]), actions[n]);
    }
  }

  lemma FreshUnwasted(maxWorkers: nat)
    ensures Unwasted(Start(maxWorkers))
  {
  }

  lemma ReachableBefore(actions: seq<Action>)
    requires actions != [] && AlwaysReachable(actions)
    ensures var a := actions[|actions| - 1];
            AlwaysReachable(actions[..|actions| - 1]) && (a.Submit? || a.Handle? ==> a.live <= a.routable)
  {
  }

  /** In every run, a task told that its worker died or timed out has used all its
      attempts; when every process found alive was reachable, it was sent to as many
      workers as there were when it was submitted. */
  lemma FailureUsesAllAttempts(maxWorkers: nat, actions: seq<Action>, r: Sent)
    requires r in Exec(maxWorkers, actions).replies && (r.answer == WorkerDied || r.answer == TimedOut)
    ensures var s := Exec(maxWorkers, actions);
            && r.task < |s.tried| == |s.wasted| == |s.allowed|
            && |s.tried[r.task]| + s.wasted[r.task] == s.allowed[r.task]
            && (AlwaysReachable(actions) ==> |s.tried[r.task]| == s.allowed[r.task])
  {
    hide Exec, Count, AlwaysReachable;
    AnsweredOnce(maxWorkers, actions);
    var s := Exec(maxWorkers, actions);
    var k :| 0 <= k < |s.replies| && s.replies[k] == r;
    assert AllUsed(s, s.replies[k]);
    if AlwaysReachable(actions) { NothingWasted(maxWorkers, actions); }
  }

  /** Task `task` is with a new worker, with `remaining` attempts left. */
  ghost predicate SentOn(s: System, k: nat, pid: Pid, remaining: nat, s': System)
    requires k < |s.items|
  {
    && s'.items == Drop(s.items, k) + [Item(s.items[k].task, pid, remaining, Waiting)]
    && s'.replies == s.replies
  }

  /** Nobody is left to send it to, and the caller is told so. */
  ghost predicate GivenUp(s: System, k: nat, s': System)
    requires k < |s.items|
  {
    s'.items == Drop(s.items, k) && s'.replies == s.replies + [Sent(s.items[k].task, NoneLeft)]
  }

  /** The task goes to the first usable worker left if and only if it has more attempts
      than there are costly workers before that one; otherwise, and with no usable worker,
      it is given up. */
  ghost predicate GoesOn(s: System, k: nat, live: set<Pid>, routable: set<Pid>, s': System)
    requires k < |s.items|
  {
    var it := s.items[k];
    var ws := RemovePid(s.workers, it.pid);
    && ((forall w :: w in ws ==> !Usable(w, live, routable)) ==> GivenUp(s, k, s'))
    && forall b: nat :: First(ws, live, routable, b) ==>
         var cost := |Costly(ws, live, routable, b)|;
         if cost < it.remaining then SentOn(s, k, ws[b].pid, it.remaining - 1 - cost, s') else GivenUp(s, k, s')
  }

  lemma HandleGoesTo(s: System, k: nat, live: set<Pid>, routable: set<Pid>, target: Target)
    requires k < |s.items| && s.items[k].stage == FailedOver && s.items[k].task < |s.tried|
    requires target == Dispatch(RemovePid(s.workers, s.items[k].pid), live, routable, s.items[k].remaining).1
    ensures var s' := Apply(s, Handle(k, live, routable));
            if target.SentTo? then SentOn(s, k, target.pid, target.remaining, s') else GivenUp(s, k, s')
  {
    hide Dispatch, Drop, Unreached, RemovePid, Retire;
    RetireIsRemove(s.workers, s.items[k].pid);
  }

  lemma HandleGoesOn(s: System, k: nat, live: set<Pid>, routable: set<Pid>)
    requires k < |s.items| && s.items[k].stage == FailedOver && s.items[k].task < |s.tried|
    ensures GoesOn(s, k, live, routable, Apply(s, Handle(k, live, routable)))
  {
    hide Dispatch, Drop, First, Costly, Usable, RemovePid, Apply, SentOn, GivenUp;
    var it := s.items[k];
    var ws := RemovePid(s.workers, it.pid);
    HandleGoesTo(s, k, live, routable, Dispatch(ws, live, routable, it.remaining).1);
    if forall w :: w in ws ==> !Usable(w, live, routable) { NobodyUsable(ws, live, routable, it.remaining); }
    forall b: nat | First(ws, live, routable, b)
      ensures b < |ws| && var cost := |Costly(ws, live, routable, b)|;
              Dispatch(ws, live, routable, it.remaining).1 ==
              if cost < it.remaining then SentTo(ws[b].pid, it.remaining - 1 - cost) else NoWorkers
    { FirstInRange(ws, live, routable, b); DispatchOutcome(ws, live, routable, it.remaining, b); }
  }

  /** In every run, a lost task that is handed back still has an attempt left and goes on
      to the first usable worker; if every process found alive is reachable, it goes on
      whenever some worker left is alive, at the cost of one attempt. */
  lemma LostTaskGoesOn(maxWorkers: nat, actions: seq<Action>, k: nat, live: set<Pid>, routable: set<Pid>)
    requires var s := Exec(maxWorkers, actions); k < |s.items| && s.items[k].stage == FailedOver
    ensures var s, s' := Exec(maxWorkers, actions), Exec(maxWorkers, actions + [Handle(k, live, routable)]);
            && s.items[k].remaining > 0 && GoesOn(s, k, live, routable, s')
            && (live <= routable && (exists w :: w in s.workers && w.pid != s.items[k].pid && w.pid in live) ==>
                  exists pid :: pid in live && SentOn(s, k, pid, s.items[k].remaining - 1, s'))
  {
    hide Exec, Apply, Count, SentOn, GivenUp, RemovePid, First, Costly, Drop;
    AnsweredOnce(maxWorkers, actions);
    var s, s' := Exec(maxWorkers, actions), Exec(maxWorkers, actions + [Handle(k, live, routable)]);
    ExecSnoc(maxWorkers, actions, Handle(k, live, routable));
    var it := s.items[k];
    assert WithinBudget(s, it);
    HandleGoesOn(s, k, live, routable);
    if live <= routable && exists w :: w in s.workers && w.pid != it.pid && w.pid in live {
      var w :| w in s.workers && w.pid != it.pid && w.pid in live;
      var ws := RemovePid(s.workers, it.pid);
      assert w in ws && Usable(w, live, routable);
      var b := FirstExists(ws, live, routable);
      NobodyCostly(ws, live, routable, b);
      assert SentOn(s, k, ws[b].pid, it.remaining - 1, s');
    }
  }

  /** Without that, attempts can run out: a run in which a lost task with an attempt left is
      given up although a worker is alive and reachable, because another that is alive but
      not reachable is picked first. */
  lemma AttemptsCanRunOut() returns (actions: seq<Action>, live: set<Pid>, routable: set<Pid>)
    ensures var s, s' := Exec(0, actions), Exec(0, actions + [Handle(0, live, routable)]);
            && |s.items| == 2 && s.items[0].stage == FailedOver && s.items[0].remaining > 0
            && (exists w :: w in s.workers && w.pid != s.items[0].pid && Usable(w, live, routable))
            && GivenUp(s, 0, s')
  {
    hide Exec, Apply, First, Costly, RemovePid, GivenUp;
    live, routable := {2, 3}, {2};
    actions := LostAmongThree();
    var s := Exec(0, actions);
    var ws := [Busy(2), Idle(3)];
    assert s.workers[1] in s.workers;
    OneRetired();
    LastChanceWasted(ws, live, routable);
    LostTaskGoesOn(0, actions, 0, live, routable);
  }

  function Idle(id: nat): Worker
  {
    Worker(id, id, 0, 0, 0)
  }

  function Busy(id: nat): Worker
  {
    Worker(id, id, 1, 0, 0)
  }

  lemma OneRetired()
    ensures RemovePid([Busy(1), Busy(2), Idle(3)], 1) == [Busy(2), Idle(3)]
  {
    assert [Busy(1), Busy(2), Idle(3)][1..] == [Busy(2), Idle(3)];
    assert [Busy(2), Idle(3)][1..] == [Idle(3)] && [Idle(3)][1..] == [];
  }

  lemma LastChanceWasted(ws: seq<Worker>, live: set<Pid>, routable: set<Pid>)
    requires ws == [Busy(2), Idle(3)] && live == {2, 3} && routable == {2}
    ensures First(ws, live, routable, 0) && |Costly(ws, live, routable, 0)| == 1
  {
    assert Ahead(ws, 1, 0) && ws[1].pid == 3;
    assert Costly(ws, live, routable, 0) == {3};
  }

  /** What the step lemmas below keep track of. */
  ghost predicate Looks(s: System, ws: seq<Worker>, items: seq<Item>, tasks: nat)
  {
    s.workers == ws && s.items == items && |s.tried| == tasks && s.nextId == |ws| && s.maxWorkers == 0
  }

  lemma RegisterLooks(s: System, ws: seq<Worker>, items: seq<Item>, tasks: nat)
    requires Looks(s, ws, items, tasks)
    ensures Looks(Apply(s, Register(|ws| + 1)), ws + [Idle(|ws| + 1)], items, tasks)
  {
  }

  /** A task goes straight to the worker picked first. */
  lemma SubmitLooks(s: System, ws: seq<Worker>, items: seq<Item>, tasks: nat, live: set<Pid>, i: nat)
    requires Looks(s, ws, items, tasks) && i < |ws| && i == PickIndex(ws) && ws[i].pid in live
    ensures Looks(Apply(s, Submit(live, live)), Bump(ws, i), items + [Item(tasks, ws[i].pid, |ws| - 1, Waiting)], tasks + 1)
  {
    hide Dispatch, PickIndex, Unreached, RemovePid, Place;
    DispatchPicks(ws, live, live, |ws|);
    PlaceLooks(Opened(s), tasks, live, SentTo(ws[i].pid, |ws| - 1), Bump(ws, i));
  }

  lemma PlaceLooks(s: System, task: nat, live: set<Pid>, target: Target, ws: seq<Worker>)
    requires task < |s.tried| && target.SentTo? && Dispatch(s.workers, live, live, |s.workers|) == (ws, target)
    ensures var s' := Place(s, task, live, live, |s.workers|);
            && s'.workers == ws && s'.items == s.items + [Item(task, target.pid, target.remaining, Waiting)]
            && |s'.tried| == |s.tried| && s'.nextId == s.nextId && s'.maxWorkers == s.maxWorkers
  {
    hide Dispatch, Unreached;
  }

  /** Two tasks with two workers, a third worker, and the first task lost. */
  lemma LostAmongThree() returns (a: seq<Action>)
    ensures var s := Exec(0, a);
            s.workers == [Busy(1), Busy(2), Idle(3)] && s.items == [Item(0, 1, 1, FailedOver), Item(1, 2, 1, Waiting)]
  {
    hide Exec, Apply, Looks;
    a := TwoOut();
    ExecSnoc(0, a, Register(3));
    RegisterLooks(Exec(0, a), [Busy(1), Busy(2)], [Item(0, 1, 1, Waiting), Item(1, 2, 1, Waiting)], 2);
    assert [Busy(1), Busy(2)] + [Idle(3)] == [Busy(1), Busy(2), Idle(3)];
    a := a + [Register(3)];
    ExecSnoc(0, a, Lose(0, true));
    LoseLooks(Exec(0, a));
    a := a + [Lose(0, true)];
  }

  lemma LoseLooks(s: System)
    requires Looks(s, [Busy(1), Busy(2), Idle(3)], [Item(0, 1, 1, Waiting), Item(1, 2, 1, Waiting)], 2)
    ensures var s' := Apply(s, Lose(0, true));
            s'.workers == s.workers && s'.items == [Item(0, 1, 1, FailedOver), Item(1, 2, 1, Waiting)]
  {
  }

  lemma TwoOut() returns (a: seq<Action>)
    ensures Looks(Exec(0, a), [Busy(1), Busy(2)], [Item(0, 1, 1, Waiting), Item(1, 2, 1, Waiting)], 2)
  {
    hide Exec, Apply, Looks;
    a := TwoIdle();
    var both := {1, 2};
    ExecSnoc(0, a, Submit(both, both));
    assert PickIndex([Idle(1), Idle(2)]) == 0 && Bump([Idle(1), Idle(2)], 0) == [Busy(1), Idle(2)];
    SubmitLooks(Exec(0, a), [Idle(1), Idle(2)], [], 0, both, 0);
    a := a + [Submit(both, both)];
    ExecSnoc(0, a, Submit(both, both));
    assert [] + [Item(0, 1, 1, Waiting)] == [Item(0, 1, 1, Waiting)];
    assert PickIndex([Busy(1), Idle(2)]) == 1 && Bump([Busy(1), Idle(2)], 1) == [Busy(1), Busy(2)];
    SubmitLooks(Exec(0, a), [Busy(1), Idle(2)], [Item(0, 1, 1, Waiting)], 1, both, 1);
    assert [Item(0, 1, 1, Waiting)] + [Item(1, 2, 1, Waiting)] == [Item(0, 1, 1, Waiting), Item(1, 2, 1, Waiting)];
    a := a + [Submit(both, both)];
  }

  lemma TwoIdle() returns (a: seq<Action>)
    ensures Looks(Exec(0, a), [Idle(1), Idle(2)], [], 0)
  {
    hide Apply;
    assert Looks(Exec(0, []), [], [], 0);
    ExecSnoc(0, [], Register(1));
    RegisterLooks(Exec(0, []), [], [], 0);
    a := [Register(1)];
    assert [] + [Register(1)] == a && [] + [Idle(1)] == [Idle(1)];
    ExecSnoc(0, a, Register(2));
    RegisterLooks(Exec(0, a), [Idle(1)], [], 0);
    assert [Idle(1)] + [Idle(2)] == [Idle(1), Idle(2)];
    a := a + [Register(2)];
  }

  lemma NobodyCostly(ws: seq<Worker>, live: set<Pid>, routable: set<Pid>, b: nat)
    requires First(ws, live, routable, b) && live <= routable
    ensures b < |ws| && ws[b].pid in live && Costly(ws, live, routable, b) == {}
  {
  }

  lemma ExecSnoc(maxWorkers: nat, actions: seq<Action>, a: Action)
    ensures Exec(maxWorkers, actions + [a]) == Apply(Exec(maxWorkers, actions), a)
  {
    assert (actions + [a])[..|actions|] == actions;
  }

  lemma RetireIsRemove(ws: seq<Worker>, pid: Pid)
    ensures Retire(ws, pid) == RemovePid(ws, pid)
  {
    RemoveIgnores(ws, Lower(ws, pid), pid);
  }

  // ---------------------------------------------------------------------------
  // Every task gets its answer
  // ---------------------------------------------------------------------------

  /** How many steps an item can still take before its task is answered. */
  function Effort(it: Item): nat
  {
    match it.stage
    case Waiting => 2 * it.remaining + 2
    case FailedOver => 2 * it.remaining + 1
    case Answered(_) => 0
    case Retired => 0
  }

  function Debt(items: seq<Item>): nat
  {
    if items == [] then 0 else Debt(items[..|items| - 1]) + Effort(items[|items| - 1])
  }

  lemma DebtSnoc(items: seq<Item>, it: Item)
    ensures Debt(items + [it]) == Debt(items) + Effort(it)
  {
    assert (items + [it])[..|items|] == items;
  }

  lemma {:induction false} DebtUpdate(items: seq<Item>, k: nat, it: Item)
    requires k < |items|
    ensures Debt(items[k := it]) + Effort(items[k]) == Debt(items) + Effort(it)
    decreases |items|
  {
    var n := |items| - 1;
    if k < n {
      assert items[k := it][..n] == items[..n][k := it];
      DebtUpdate(items[..n], k, it);
    } else {
      assert items[k := it][..n] == items[..n];
    }
  }

  lemma {:induction false} DebtDrop(items: seq<Item>, k: nat)
    requires k < |items|
    ensures Debt(Drop(items, k)) + Effort(items[k]) == Debt(items)
    decreases |items|
  {
    var n := |items| - 1;
    if k < n {
      assert Drop(items, k) == Drop(items[..n], k) + [items[n]];
      DebtDrop(items[..n], k);
      DebtSnoc(Drop(items[..n], k), items[n]);
    } else {
      assert Drop(items, k) == items[..n];
    }
  }

  /** A step that brings some task nearer to its answer: a reply, a loss, or the failover
      of a lost one. */
  predicate Advances(s: System, a: Action)
  {
    match a
    case Reply(k, _) => k < |s.items| && s.items[k].stage == Waiting
    case Lose(k, _) => k < |s.items| && s.items[k].stage == Waiting
    case Handle(k, _, _) => k < |s.items| && s.items[k].stage == FailedOver && s.items[k].task < |s.tried|
    case Register(_) => false
    case Unregister(_) => false
    case Submit(_, _) => false
  }

  lemma PlaceDebt(s: System, task: nat, live: set<Pid>, routable: set<Pid>, attempts: nat)
    requires task < |s.tried|
    ensures Debt(Place(s, task, live, routable, attempts).items) <= Debt(s.items) + 2 * attempts
  {
    hide Dispatch, Without, PickIndex;
    var (ws, target) := Dispatch(s.workers, live, routable, attempts);
    var gone, rest := DispatchShape(s.workers, live, routable, attempts);
    if target.SentTo? { DebtSnoc(s.items, Item(task, target.pid, target.remaining, Waiting)); }
  }

  /** No step but a submit adds to what is owed, and an advancing one takes from it. */
  lemma StepsPayDebt(s: System, a: Action)
    requires !a.Submit?
    ensures Debt(Apply(s, a).items) + (if Advances(s, a) then 1 else 0) <= Debt(s.items)
  {
    hide Place, Retire, Complete, Drop;
    match a
    case Register(_) =>
    case Unregister(_) =>
    case Reply(k, elapsed) =>
      if k < |s.items| { DebtUpdate(s.items, k, s.items[k].(stage := Answered(elapsed))); }
    case Lose(k, died) =>
      if k < |s.items| {
        DebtUpdate(s.items, k, s.items[k].(stage := if s.items[k].remaining == 0 then Retired else FailedOver));
      }
    case Handle(k, live, routable) =>
      if k < |s.items| {
        var it := s.items[k];
        DebtDrop(s.items, k);
        if it.stage == FailedOver && it.task < |s.tried| {
          PlaceDebt(s.(items := Drop(s.items, k), workers := Retire(s.workers, it.pid)), it.task, live, routable, it.remaining);
        }
      }
  }

  /** The advancing steps among `actions`, taken one after the other from `s`. */
  function Advancing(s: System, actions: seq<Action>): nat
    decreases |actions|
  {
    if actions == [] then 0 else One(Advances(s, actions[0])) + Advancing(Apply(s, actions[0]), actions[1..])
  }

  function After(s: System, actions: seq<Action>): System
    decreases |actions|
  {
    if actions == [] then s else After(Apply(s, actions[0]), actions[1..])
  }

  lemma {:induction false} AdvancingPays(s: System, actions: seq<Action>)
    requires forall i :: 0 <= i < |actions| ==> !actions[i].Submit?
    ensures Debt(After(s, actions).items) + Advancing(s, actions) <= Debt(s.items)
    decreases |actions|
  {
    if actions != [] {
      hide Apply;
      StepsPayDebt(s, actions[0]);
      AdvancingPays(Apply(s, actions[0]), actions[1..]);
    }
  }

  lemma {:induction false} AfterExec(maxWorkers: nat, actions: seq<Action>, more: seq<Action>)
    ensures After(Exec(maxWorkers, actions), more) == Exec(maxWorkers, actions + more)
    decreases |more|
  {
    hide Apply;
    if more == [] {
      assert actions + more == actions;
    } else {
      var next := actions + [more[0]];
      assert next[..|actions|] == actions;
      AfterExec(maxWorkers, next, more[1..]);
      assert next + more[1..] == actions + more;
    }
  }

  /** Once nothing can advance any more, every submitted task has exactly one answer. */
  lemma SettledMeansAnswered(maxWorkers: nat, actions: seq<Action>)
    requires forall a :: !Advances(Exec(maxWorkers, actions), a)
    ensures var s := Exec(maxWorkers, actions); forall t :: 0 <= t < |s.tried| ==> Count(s.replies, AnswersTo(t)) == 1
  {
    hide Exec, Count;
    AnsweredOnce(maxWorkers, actions);
    var s := Exec(maxWorkers, actions);
    forall t | 0 <= t < |s.tried| ensures Count(s.items, Owing(t)) == 0 {
      forall k | 0 <= k < |s.items| ensures !Owing(t)(s.items[k]) {
        assert !Advances(s, Reply(k, 0)) && !Advances(s, Handle(k, {}, {}));
      }
      CountNone(s.items, Owing(t));
    }
  }

  /** After any run, however replies, losses and completions then come in, at most `Debt`
      of them advance a task; and when none is left that could, every task submitted has
      exactly one answer. */
  lemma EveryTaskIsAnswered(maxWorkers: nat, actions: seq<Action>, more: seq<Action>)
    requires forall i :: 0 <= i < |more| ==> !more[i].Submit?
    ensures Advancing(Exec(maxWorkers, actions), more) <= Debt(Exec(maxWorkers, actions).items)
    ensures var s := Exec(maxWorkers, actions + more);
            (forall a :: !Advances(s, a)) ==> forall t :: 0 <= t < |s.tried| ==> Count(s.replies, AnswersTo(t)) == 1
  {
    hide Exec, Count, Advances;
    AdvancingPays(Exec(maxWorkers, actions), more);
    AfterExec(maxWorkers, actions, more);
    if forall a :: !Advances(Exec(maxWorkers, actions + more), a) { SettledMeansAnswered(maxWorkers, actions + more); }
  }
}

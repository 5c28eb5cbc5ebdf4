/**
 The execution lifecycle as a step system: API calls that create and cancel
 executions, the Redis lists, and one worker that may die between any two
 steps, or be interrupted so that its clean-up runs, and recovers when it
 boots again.

 A row lock makes each database read-modify-write one step. Cancelling a
 RUNNING execution is two: the cancellation key is set while the row lock is
 held, and the commit follows; the worker waits for the row in between, but
 can already see the key.
 */
module ExecutionLifecycle {
  import opened Prelude
  import opened Runs
  import opened ExecutionStatus

  type JobId = nat

  /** A raw list item: the identifier of an execution, or text that is no identifier. */
  datatype Item = Job(id: JobId) | Junk(text: nat)

  datatype Worker =
    | Down
    | Recovering(todo: seq<Item>)
    | Recovered(todo: seq<Item>)     // the row of todo[0] is settled, its removal is not
    | Waiting
    | Claimed(item: Item)
    | Preparing(id: JobId)           // STARTING is committed, the sandbox is being created
    | Monitoring(id: JobId)
    | Finishing(id: JobId, target: Status, handling: bool)   // `handling`: called by the exception handler
    | Clearing(id: JobId)
    | Acknowledging(item: Item)

  /**
   `locked` holds the rows that an unfinished cancellation of a RUNNING job
   keeps locked. The other fields are history: rows ever created, identifiers
   Redis accepted, creations that reported success, claims in order, executions
   somebody asked to cancel, cancellations that reported success, jobs whose
   `process` call returned after claiming them, and whether an illegal
   transition was ever attempted.
   */
  datatype State = State(
    rows: map<JobId, Status>,
    queue: seq<Item>,
    processing: seq<Item>,
    keys: set<JobId>,
    locked: set<JobId>,
    worker: Worker,
    created: set<JobId>,
    enqueued: set<JobId>,
    replied: set<JobId>,
    started: seq<JobId>,
    asked: set<JobId>,
    cancelled: set<JobId>,
    returned: set<JobId>,
    illegal: bool)

  datatype Event =
    // API
    | Create(id: JobId)
    | Enqueue(id: JobId)
    | EnqueueFails(id: JobId)   // the push raised, whether or not it landed, and the row is deleted
    | Replied(id: JobId)
    | CancelQueued(id: JobId)
    | MarkCancellation(id: JobId)
    | CommitCancellation(id: JobId)
    | CancellationFails(id: JobId)
    | KeyExpires(id: JobId)
    | StrayItem(text: nat)
    // worker
    | Boot
    | RecoverRow
    | RecoverRemove
    | RecoveryDone
    | Claim
    | Begin
    | Launch
    | Fails
    | Observe(target: Status)
    | Finish
    | Clear
    | Acknowledge
    | Crash
    | Interrupt(cleared: bool)

  const INIT := State(map[], [], [], {}, {}, Down, {}, {}, {}, [], {}, {}, {}, false)

  function StatusOf(s: State, id: JobId): Option<Status> {
    if id in s.rows then Some(s.rows[id]) else None
  }

  /** LREM with count 0. */
  function RemoveAll(items: seq<Item>, item: Item): (rest: seq<Item>)
    ensures forall x :: x in rest <==> x in items && x != item
  {
    if items == [] then []
    else if items[0] == item then RemoveAll(items[1..], item)
    else [items[0]] + RemoveAll(items[1..], item)
  }

  /** `_transition`: nothing happens unless the row is in the expected status. */
  function Transition(s: State, id: JobId, expected: Status, target: Status): State {
    if StatusOf(s, id) != Some(expected) then s else Move(s, id, target)
  }

  /** `transition_to` on an existing row, remembering an illegal attempt. */
  function Move(s: State, id: JobId, target: Status): State
    requires id in s.rows
  {
    if Allowed(s.rows[id], target) then s.(rows := s.rows[id := target]) else s.(illegal := true)
  }

  predicate Enabled(s: State, e: Event) {
    match e
    case Create(id) => id !in s.created
    case Enqueue(id) => id in s.created && id !in s.enqueued
    case EnqueueFails(id) => id in s.created && id in s.rows && id !in s.replied && id !in s.locked
    case Replied(id) => id in s.enqueued && id in s.rows && id !in s.replied
    case CancelQueued(id) => StatusOf(s, id) == Some(QUEUED)
    case MarkCancellation(id) => StatusOf(s, id) == Some(RUNNING) && id !in s.locked
    case CommitCancellation(id) => id in s.locked
    case CancellationFails(id) => id in s.locked
    case KeyExpires(id) => id in s.keys
    case StrayItem(_) => true
    case Boot => s.worker.Down?
    case RecoverRow => s.worker.Recovering? && s.worker.todo != [] &&
                       (s.worker.todo[0].Job? ==> s.worker.todo[0].id !in s.locked)
    case RecoverRemove => s.worker.Recovered? && s.worker.todo != []
    case RecoveryDone => s.worker.Recovering? && s.worker.todo == []
    case Claim => s.worker.Waiting? && s.queue != []
    case Begin => s.worker.Claimed? && (s.worker.item.Job? ==> s.worker.item.id !in s.locked)
    case Launch => s.worker.Preparing? && s.worker.id !in s.locked
    case Fails => s.worker.Preparing? || s.worker.Monitoring?
    case Observe(t) => s.worker.Monitoring? && (t == CANCELLED ==> s.worker.id in s.keys) &&
                       t in {CANCELLED, TIMEOUT, COMPLETED, FAILED}
    case Finish => s.worker.Finishing? && s.worker.id !in s.locked
    case Clear => s.worker.Clearing?
    case Acknowledge => s.worker.Acknowledging?
    case Crash => !s.worker.Down?
    case Interrupt(_) => !s.worker.Down?
  }

  function ApiStep(s: State, e: Event): State
    requires Enabled(s, e)
  {
    match e
    case Create(id) => s.(rows := s.rows[id := QUEUED], created := s.created + {id})
    case Enqueue(id) => s.(queue := s.queue + [Job(id)], enqueued := s.enqueued + {id})
    case EnqueueFails(id) => s.(rows := s.rows - {id})
    case Replied(id) => s.(replied := s.replied + {id})
    case CancelQueued(id) => Move(s, id, CANCELLED).(asked := s.asked + {id}, cancelled := s.cancelled + {id})
    case MarkCancellation(id) => s.(keys := s.keys + {id}, locked := s.locked + {id}, asked := s.asked + {id})
    case CommitCancellation(id) =>
      var s' := if id in s.rows then Move(s, id, CANCELLED) else s;
      s'.(locked := s.locked - {id}, cancelled := s.cancelled + {id})
    case CancellationFails(id) => s.(locked := s.locked - {id})
    case KeyExpires(id) => s.(keys := s.keys - {id})
    case StrayItem(text) => s.(queue := s.queue + [Junk(text)])
    case _ => s
  }

  /** The row of one recovered item: requeue it, or fail what the dead worker had claimed. */
  function RecoverOne(s: State, item: Item): State {
    if item.Junk? then s
    else if StatusOf(s, item.id) == Some(QUEUED) then s.(queue := s.queue + [item])
    else if item.id in s.rows && Active(s.rows[item.id]) then Move(s, item.id, FAILED)
    else s
  }

  function WorkerStep(s: State, e: Event): State
    requires Enabled(s, e)
  {
    match e
    case Boot => s.(worker := Recovering(s.processing))
    case RecoverRow => RecoverOne(s, s.worker.todo[0]).(worker := Recovered(s.worker.todo))
    case RecoverRemove =>
      s.(processing := RemoveAll(s.processing, s.worker.todo[0]), worker := Recovering(s.worker.todo[1..]))
    case RecoveryDone => s.(worker := Waiting)
    case Claim => s.(queue := s.queue[1..], processing := s.processing + [s.queue[0]], worker := Claimed(s.queue[0]))
    case Begin =>
      var item := s.worker.item;
      if item.Job? && StatusOf(s, item.id) == Some(QUEUED)
      then Transition(s, item.id, QUEUED, STARTING).(worker := Preparing(item.id), started := s.started + [item.id])
      else s.(worker := Acknowledging(item))
    case Launch =>
      var id := s.worker.id;
      if StatusOf(s, id) == Some(STARTING)
      then Transition(s, id, STARTING, RUNNING).(worker := Monitoring(id))
      else s.(worker := Clearing(id))
    case Fails => s.(worker := Finishing(s.worker.id, FAILED, true))
    case Observe(target) => s.(worker := Finishing(s.worker.id, target, false))
    case Finish =>
      var id := s.worker.id;
      var s' := if id in s.rows && s.rows[id] != CANCELLED then Move(s, id, s.worker.target) else s;
      s'.(worker := Clearing(id))
    case Clear =>
      s.(keys := s.keys - {s.worker.id}, returned := s.returned + {s.worker.id},
         worker := Acknowledging(Job(s.worker.id)))
    case Acknowledge => s.(processing := RemoveAll(s.processing, s.worker.item), worker := Waiting)
    case Crash => s.(worker := Down)
    case Interrupt(cleared) => Unwind(s, cleared)
    case _ => s
  }

  /**
   The worker is cancelled at one of its awaits. The exception handler of
   `process` does not catch that, but every `finally` block runs: inside the
   `try` the cancellation key is deleted (unless that is the await that was
   cancelled), and `run` removes the claimed item.
   */
  function Unwind(s: State, cleared: bool): State {
    match InHand(s.worker)
    case None => s.(worker := Down)
    case Some(item) =>
      var outside := item.Junk? || s.worker.Claimed? || s.worker.Acknowledging?;
      s.(worker := Down,
         keys := if outside || !cleared then s.keys else s.keys - {item.id},
         processing := RemoveAll(s.processing, item))
  }

  /** The item the worker is working on, if any. */
  function InHand(w: Worker): Option<Item> {
    match w
    case Claimed(item) => Some(item)
    case Preparing(id) => Some(Job(id))
    case Monitoring(id) => Some(Job(id))
    case Finishing(id, _, _) => Some(Job(id))
    case Clearing(id) => Some(Job(id))
    case Acknowledging(item) => Some(item)
    case _ => None
  }

  predicate IsApiEvent(e: Event) {
    e.Create? || e.Enqueue? || e.EnqueueFails? || e.Replied? || e.CancelQueued? || e.MarkCancellation? ||
    e.CommitCancellation? || e.CancellationFails? || e.KeyExpires? || e.StrayItem?
  }

  function Step(s: State, e: Event): State
    requires Enabled(s, e)
  {
    if IsApiEvent(e) then ApiStep(s, e) else WorkerStep(s, e)
  }

  function Next(s: State, e: Event): Option<State> {
    if Enabled(s, e) then Some(Step(s, e)) else None
  }

  /** The state after a run, or None when some event of it was not enabled. */
  function Run(s: State, events: seq<Event>): Option<State> {
    RunOf(Next, s, events)
  }

  /** One more step of a run. */
  lemma Advance(s: State, events: seq<Event>, r: State, e: Event) returns (events': seq<Event>, r': State)
    requires Run(s, events) == Some(r) && Enabled(r, e)
    ensures events' == events + [e] && r' == Step(r, e)
    ensures Run(s, events') == Some(r')
  {
    events', r' := events + [e], Step(r, e);
    RunExtends(Next, s, events, e);
  }

  // ---- Invariant ----

  ghost predicate ListsInv(s: State) {
    && (forall id :: Job(id) in s.queue || Job(id) in s.processing ==> id in s.enqueued)
    && s.replied <= s.rows.Keys && s.replied <= s.enqueued && s.enqueued <= s.created
    && s.rows.Keys <= s.created
  }

  ghost predicate WorkerInv(s: State) {
    match s.worker
    case Down => true
    case Recovering(todo) =>
      && (forall x :: x in s.processing ==> x in todo)
      && (forall id :: Job(id) in todo ==> id in s.enqueued)
    case Recovered(todo) =>
      && todo != []
      && (forall x :: x in s.processing ==> x in todo)
      && (forall id :: Job(id) in todo ==> id in s.enqueued)
      && (todo[0].Job? && todo[0].id in s.rows ==>
            !Active(s.rows[todo[0].id]) && (s.rows[todo[0].id] == QUEUED ==> todo[0] in s.queue))
    case Waiting => s.processing == []
    case Claimed(item) => s.processing == [item]
    case Preparing(id) => s.processing == [Job(id)] && (id in s.rows ==> s.rows[id] == STARTING)
    case Monitoring(id) => s.processing == [Job(id)] && (id in s.rows ==> s.rows[id] in {RUNNING, CANCELLED})
    case Finishing(id, target, handling) =>
      && s.processing == [Job(id)] && target in {CANCELLED, TIMEOUT, COMPLETED, FAILED}
      && (handling ==> target == FAILED)
      && (target == CANCELLED ==> id in s.asked)
      && (id in s.rows ==> s.rows[id] in {RUNNING, CANCELLED} || (s.rows[id] == STARTING && handling))
    case Clearing(id) => s.processing == [Job(id)] && (id in s.rows ==> Terminal(s.rows[id]))
    case Acknowledging(item) =>
      s.processing == [item] && (item.Job? && item.id in s.rows ==> s.rows[item.id] != QUEUED)
  }

  ghost predicate HistoryInv(s: State) {
    && (forall id :: id in s.locked ==> id in s.rows && s.rows[id] == RUNNING)
    && (forall id :: id in s.started ==> id in s.enqueued && (id in s.rows ==> s.rows[id] != QUEUED))
    && (forall i, j :: 0 <= i < j < |s.started| ==> s.started[i] != s.started[j])
    && (forall id :: id in s.rows && s.rows[id] !in {QUEUED, CANCELLED} ==> id in s.started)
    && s.cancelled <= s.created && s.cancelled <= s.asked
    && (forall id :: id in s.cancelled && id in s.rows ==> s.rows[id] == CANCELLED)
    && (forall id :: id in s.rows && s.rows[id] == CANCELLED ==> id in s.asked)
    && (forall id :: id in s.keys ==> id in s.started && id in s.asked)
    && s.locked <= s.asked
    && (forall id :: id in s.returned ==>
                       id in s.enqueued && (id in s.rows ==> Terminal(s.rows[id])) && id !in s.keys && id !in s.locked)
    && !s.illegal
  }

  ghost predicate Inv(s: State) {
    ListsInv(s) && WorkerInv(s) && HistoryInv(s)
  }

  lemma CreationKeepsInv(s: State, e: Event)
    requires Inv(s) && Enabled(s, e)
    requires e.Create? || e.EnqueueFails? || e.Replied?
    ensures Inv(Step(s, e))
  {
  }

  lemma PushKeepsInv(s: State, e: Event)
    requires Inv(s) && Enabled(s, e)
    requires e.Enqueue? || e.StrayItem?
    ensures Inv(Step(s, e))
  {
  }

  lemma CancelQueuedKeepsInv(s: State, e: Event)
    requires Inv(s) && Enabled(s, e)
    requires e.CancelQueued?
    ensures Inv(Step(s, e))
  {
    var s' := Step(s, e);
    assert ListsInv(s');
    assert WorkerInv(s');
    assert HistoryInv(s');
  }

  lemma CommitCancellationKeepsInv(s: State, e: Event)
    requires Inv(s) && Enabled(s, e)
    requires e.CommitCancellation?
    ensures Inv(Step(s, e))
  {
    var s' := Step(s, e);
    assert ListsInv(s');
    assert WorkerInv(s');
    assert HistoryInv(s');
  }

  lemma CancelKeyKeepsInv(s: State, e: Event)
    requires Inv(s) && Enabled(s, e)
    requires e.MarkCancellation? || e.CancellationFails? || e.KeyExpires?
    ensures Inv(Step(s, e))
  {
  }

  lemma RestartKeepsInv(s: State, e: Event)
    requires Inv(s) && Enabled(s, e)
    requires e.Boot? || e.RecoveryDone? || e.Crash? || e.Interrupt?
    ensures Inv(Step(s, e))
  {
    EmptyOrHasHead(s.processing);
  }

  lemma RecoverRowKeepsInv(s: State, e: Event)
    requires Inv(s) && Enabled(s, e)
    requires e.RecoverRow?
    ensures Inv(Step(s, e))
  {
    var s' := Step(s, e);
    assert ListsInv(s');
    assert WorkerInv(s');
    assert HistoryInv(s');
  }

  lemma RecoverRemoveKeepsInv(s: State, e: Event)
    requires Inv(s) && Enabled(s, e)
    requires e.RecoverRemove?
    ensures Inv(Step(s, e))
  {
  }

  lemma ClaimKeepsInv(s: State, e: Event)
    requires Inv(s) && Enabled(s, e)
    requires e.Claim?
    ensures Inv(Step(s, e))
  {
  }

  lemma BeginKeepsInv(s: State, e: Event)
    requires Inv(s) && Enabled(s, e)
    requires e.Begin?
    ensures Inv(Step(s, e))
  {
    var s' := Step(s, e);
    assert ListsInv(s');
    assert WorkerInv(s');
    assert HistoryInv(s');
  }

  lemma SandboxKeepsInv(s: State, e: Event)
    requires Inv(s) && Enabled(s, e)
    requires e.Fails? || e.Observe?
    ensures Inv(Step(s, e))
  {
  }

  lemma LaunchKeepsInv(s: State, e: Event)
    requires Inv(s) && Enabled(s, e)
    requires e.Launch?
    ensures Inv(Step(s, e))
  {
  }

  lemma FinishKeepsInv(s: State, e: Event)
    requires Inv(s) && Enabled(s, e)
    requires e.Finish?
    ensures Inv(Step(s, e))
  {
  }

  lemma ReturnKeepsInv(s: State, e: Event)
    requires Inv(s) && Enabled(s, e)
    requires e.Clear? || e.Acknowledge?
    ensures Inv(Step(s, e))
  {
    if e.Acknowledge? {
      assert RemoveAll(s.processing, s.worker.item) == [];
    }
  }

  lemma StepKeepsInv(s: State, e: Event)
    requires Inv(s) && Enabled(s, e)
    ensures Inv(Step(s, e))
  {
    match e {
      case Create(_) => CreationKeepsInv(s, e);
      case EnqueueFails(_) => CreationKeepsInv(s, e);
      case Replied(_) => CreationKeepsInv(s, e);
      case Enqueue(_) => PushKeepsInv(s, e);
      case StrayItem(_) => PushKeepsInv(s, e);
      case CancelQueued(_) => CancelQueuedKeepsInv(s, e);
      case CommitCancellation(_) => CommitCancellationKeepsInv(s, e);
      case MarkCancellation(_) => CancelKeyKeepsInv(s, e);
      case CancellationFails(_) => CancelKeyKeepsInv(s, e);
      case KeyExpires(_) => CancelKeyKeepsInv(s, e);
      case Boot => RestartKeepsInv(s, e);
      case RecoveryDone => RestartKeepsInv(s, e);
      case Crash => RestartKeepsInv(s, e);
      case Interrupt(_) => RestartKeepsInv(s, e);
      case RecoverRow => RecoverRowKeepsInv(s, e);
      case RecoverRemove => RecoverRemoveKeepsInv(s, e);
      case Claim => ClaimKeepsInv(s, e);
      case Begin => BeginKeepsInv(s, e);
      case Launch => LaunchKeepsInv(s, e);
      case Fails => SandboxKeepsInv(s, e);
      case Observe(_) => SandboxKeepsInv(s, e);
      case Finish => FinishKeepsInv(s, e);
      case Clear => ReturnKeepsInv(s, e);
      case Acknowledge => ReturnKeepsInv(s, e);
    }
  }

  lemma {:induction false} RunKeepsInv(s: State, events: seq<Event>)
    requires Inv(s) && Run(s, events).Some?
    ensures Inv(Run(s, events).value)
    decreases |events|
  {
    if events != [] {
      StepKeepsInv(s, events[0]);
      RunKeepsInv(Step(s, events[0]), events[1..]);
    }
  }

  // ---- No job is lost ----

  /** Every job Redis accepted is still on a list while it waits, and on the processing list while it is claimed. */
  ghost predicate JobsSurvive(s: State) {
    && (forall id :: id in s.enqueued && StatusOf(s, id) == Some(QUEUED) ==>
                       Job(id) in s.queue || Job(id) in s.processing)
    && (forall id :: id in s.rows && Active(s.rows[id]) ==> Job(id) in s.processing)
  }

  /** As long as none has been lost, the worker takes up only jobs that wait or are over. */
  ghost predicate Surviving(s: State) {
    && JobsSurvive(s)
    && (s.worker.Claimed? || s.worker.Acknowledging? ==>
          s.worker.item.Job? && s.worker.item.id in s.rows ==> !Active(s.rows[s.worker.item.id]))
  }

  /** An interruption is harmless when the job in hand, if any, is over, or waits and is queued a second time. */
  predicate InterruptIsHarmless(s: State) {
    var item := InHand(s.worker);
    item.Some? && item.value.Job? ==>
      && StatusOf(s, item.value.id) !in {Some(STARTING), Some(RUNNING)}
      && (StatusOf(s, item.value.id) == Some(QUEUED) ==> item.value in s.queue)
  }

  predicate Harmful(s: State, e: Event) {
    e.Interrupt? && !InterruptIsHarmless(s)
  }

  predicate IsCancellation(e: Event) {
    e.CancelQueued? || e.MarkCancellation? || e.CommitCancellation? || e.CancellationFails? || e.KeyExpires?
  }

  lemma CreationSurvives(s: State, e: Event)
    requires Inv(s) && Surviving(s) && Enabled(s, e) && IsApiEvent(e) && !IsCancellation(e)
    ensures Surviving(Step(s, e))
  {
  }

  lemma CancellationSurvives(s: State, e: Event)
    requires Inv(s) && Surviving(s) && Enabled(s, e) && IsCancellation(e)
    ensures Surviving(Step(s, e))
  {
  }

  lemma RecoveryStepSurvives(s: State, e: Event)
    requires Inv(s) && Surviving(s) && Enabled(s, e)
    requires e.Boot? || e.RecoverRow? || e.RecoverRemove? || e.RecoveryDone? || e.Crash?
    ensures Surviving(Step(s, e))
  {
  }

  lemma ClaimStepSurvives(s: State, e: Event)
    requires Inv(s) && Surviving(s) && Enabled(s, e)
    requires e.Claim? || e.Begin?
    ensures Surviving(Step(s, e))
  {
  }

  lemma RunningStepSurvives(s: State, e: Event)
    requires Inv(s) && Surviving(s) && Enabled(s, e)
    requires e.Launch? || e.Fails? || e.Observe? || e.Finish?
    ensures Surviving(Step(s, e))
  {
  }

  lemma ReturnStepSurvives(s: State, e: Event)
    requires Inv(s) && Surviving(s) && Enabled(s, e)
    requires e.Clear? || e.Acknowledge?
    ensures Surviving(Step(s, e))
  {
  }

  /** A crash touches nothing but the worker; an interruption takes what is in hand off the list, and its key away. */
  lemma WhatAStopLeaves(s: State)
    requires !s.worker.Down?
    ensures Step(s, Crash) == s.(worker := Down)
    ensures var r := Step(s, Interrupt(true));
            && r.worker == Down && r.rows == s.rows && r.queue == s.queue && r.locked == s.locked
            && (forall x :: x in r.processing <==> x in s.processing && InHand(s.worker) != Some(x))
            && (forall id :: id in r.keys <==>
                               id in s.keys && !(InHand(s.worker) == Some(Job(id)) &&
                                                 !s.worker.Claimed? && !s.worker.Acknowledging?))
  {
  }

  /** An interruption loses a job exactly when it is not harmless. */
  lemma InterruptSurvivesIff(s: State, cleared: bool)
    requires Inv(s) && Surviving(s) && Enabled(s, Interrupt(cleared))
    ensures Surviving(Step(s, Interrupt(cleared))) <==> InterruptIsHarmless(s)
    ensures JobsSurvive(Step(s, Interrupt(cleared))) <==> InterruptIsHarmless(s)
  {
    var s' := Step(s, Interrupt(cleared));
    if InHand(s.worker).Some? {
      assert s.processing == [InHand(s.worker).value];
      EmptyOrHasHead(s'.processing);
    }
  }

  lemma StepSurvives(s: State, e: Event)
    requires Inv(s) && Surviving(s) && Enabled(s, e)
    ensures !Harmful(s, e) ==> Surviving(Step(s, e))
    ensures Harmful(s, e) ==> !JobsSurvive(Step(s, e))
  {
    if IsCancellation(e) {
      CancellationSurvives(s, e);
    } else if IsApiEvent(e) {
      CreationSurvives(s, e);
    } else if e.Interrupt? {
      InterruptSurvivesIff(s, e.cleared);
    } else if e.Claim? || e.Begin? {
      ClaimStepSurvives(s, e);
    } else if e.Launch? || e.Fails? || e.Observe? || e.Finish? {
      RunningStepSurvives(s, e);
    } else if e.Clear? || e.Acknowledge? {
      ReturnStepSurvives(s, e);
    } else {
      RecoveryStepSurvives(s, e);
    }
  }

  /** Each orderly interruption of the run is harmless when it comes. */
  ghost predicate InterruptsAreHarmless(s: State, events: seq<Event>)
    decreases |events|
  {
    events != [] && Enabled(s, events[0]) ==>
      !Harmful(s, events[0]) && InterruptsAreHarmless(Step(s, events[0]), events[1..])
  }

  lemma {:induction false} HarmlessRunSurvives(s: State, events: seq<Event>)
    requires Inv(s) && Surviving(s) && Run(s, events).Some? && InterruptsAreHarmless(s, events)
    ensures Surviving(Run(s, events).value)
    decreases |events|
  {
    if events != [] {
      StepKeepsInv(s, events[0]);
      StepSurvives(s, events[0]);
      HarmlessRunSurvives(Step(s, events[0]), events[1..]);
    }
  }
}

/**
 What the execution lifecycle does when a publish raises, exactly when that
 strands a job or breaks the transition table, and runs in which it happens.
 */
module ExecutionFaults {
  import opened Prelude
  import opened Runs
  import opened ExecutionStatus
  import opened ExecutionLifecycle
  import opened ExecutionTheorems
  import opened ExecutionBackend

  // ---- A job that no list remembers ----

  predicate NotInHand(w: Worker, item: Item) {
    && InHand(w) != Some(item)
    && (w.Recovering? || w.Recovered? ==> item !in w.todo)
  }

  /** A claimed row that no list and no worker remembers. */
  ghost predicate Abandoned(s: State, id: JobId) {
    && StatusOf(s, id) in {Some(STARTING), Some(RUNNING), Some(CANCELLED)}
    && id in s.replied && id in s.enqueued && id in s.created && (id in s.locked ==> StatusOf(s, id) != Some(STARTING))
    && Job(id) !in s.queue && Job(id) !in s.processing && NotInHand(s.worker, Job(id))
  }

  lemma ApiStepKeepsAbandoned(s: State, e: Event, id: JobId)
    requires Abandoned(s, id) && Enabled(s, e) && IsApiEvent(e)
    ensures Abandoned(Step(s, e), id)
    ensures StatusOf(Step(s, e), id) == StatusOf(s, id) ||
            (StatusOf(s, id) == Some(RUNNING) && StatusOf(Step(s, e), id) == Some(CANCELLED))
  {
  }

  lemma RecoveryKeepsAbandoned(s: State, e: Event, id: JobId)
    requires Abandoned(s, id) && Enabled(s, e)
    requires e.Boot? || e.RecoverRow? || e.RecoverRemove? || e.RecoveryDone?
    ensures Abandoned(Step(s, e), id) && StatusOf(Step(s, e), id) == StatusOf(s, id)
  {
  }

  lemma ClaimKeepsAbandoned(s: State, e: Event, id: JobId)
    requires Abandoned(s, id) && Enabled(s, e)
    requires e.Claim? || e.Begin? || e.Launch? || e.Fails? || e.Observe?
    ensures Abandoned(Step(s, e), id) && StatusOf(Step(s, e), id) == StatusOf(s, id)
  {
  }

  lemma EndingKeepsAbandoned(s: State, e: Event, id: JobId)
    requires Abandoned(s, id) && Enabled(s, e)
    requires e.Finish? || e.Clear? || e.Acknowledge? || e.Crash? || e.Interrupt?
    ensures Abandoned(Step(s, e), id) && StatusOf(Step(s, e), id) == StatusOf(s, id)
  {
  }

  /** No worker ever ends an abandoned job; a RUNNING one can still be cancelled, a STARTING one not even that. */
  lemma {:induction false} AbandonedForever(s: State, later: seq<Event>, id: JobId)
    requires Abandoned(s, id) && Run(s, later).Some?
    ensures var r := Run(s, later).value;
            && Abandoned(r, id)
            && (StatusOf(r, id) == StatusOf(s, id) ||
                (StatusOf(s, id) == Some(RUNNING) && StatusOf(r, id) == Some(CANCELLED)))
    decreases |later|
  {
    if later != [] {
      if IsApiEvent(later[0]) {
        ApiStepKeepsAbandoned(s, later[0], id);
      } else if later[0].Boot? || later[0].RecoverRow? || later[0].RecoverRemove? || later[0].RecoveryDone? {
        RecoveryKeepsAbandoned(s, later[0], id);
      } else if later[0].Claim? || later[0].Begin? || later[0].Launch? || later[0].Fails? || later[0].Observe? {
        ClaimKeepsAbandoned(s, later[0], id);
      } else {
        EndingKeepsAbandoned(s, later[0], id);
      }
      AbandonedForever(Step(s, later[0]), later[1..], id);
    }
  }

  // ---- The publish after the claim raises ----

  /**
   `process` when the publish that follows the claim raises: the row is already
   committed as STARTING, the exception escapes through `run`, whose cleanup
   removes the job from the processing list, and the worker exits.
   */
  function BeginWithPublishFault(s: State): State
    requires Enabled(s, Begin)
  {
    var item := s.worker.item;
    if item.Job? && StatusOf(s, item.id) == Some(QUEUED)
    then Transition(s, item.id, QUEUED, STARTING).(
           worker := Down, started := s.started + [item.id], processing := RemoveAll(s.processing, item))
    else Step(s, Begin)
  }

  /** The claim loses a job to a failing publish exactly when there was a QUEUED row to claim. */
  lemma ClaimSurvivesPublishFaultIff(events: seq<Event>)
    requires Run(INIT, events).Some? && InterruptsAreHarmless(INIT, events)
    requires Enabled(Run(INIT, events).value, Begin)
    ensures var r := Run(INIT, events).value;
            JobsSurvive(BeginWithPublishFault(r)) <==>
              (r.worker.item.Job? ==> StatusOf(r, r.worker.item.id) != Some(QUEUED))
  {
    RunKeepsInv(INIT, events);
    HarmlessRunSurvives(INIT, events);
    ClaimStepSurvives(Run(INIT, events).value, Begin);
    var r := Run(INIT, events).value;
    if r.worker.item.Job? && StatusOf(r, r.worker.item.id) == Some(QUEUED) {
      var s' := BeginWithPublishFault(r);
      assert Active(s'.rows[r.worker.item.id]) && Job(r.worker.item.id) !in s'.processing;
    }
  }

  /** Cancellations in flight can all fail, which releases every row. */
  lemma {:induction false} ReleaseRows(s: State) returns (events: seq<Event>)
    ensures Run(s, events) == Some(s.(locked := {}))
    decreases |s.locked|
  {
    if s.locked == {} {
      events := [];
      assert s.(locked := {}) == s;
    } else {
      var id :| id in s.locked;
      var first, s' := Advance(s, [], s, CancellationFails(id));
      var rest := ReleaseRows(s');
      events := first + rest;
      RunsCompose(Next, s, first, rest);
    }
  }

  /** A waiting worker that nothing disturbs works through the queue up to an item. */
  lemma {:induction false} WorkUpTo(s: State, rows: map<JobId, Record>, id: JobId)
    returns (events: seq<Event>, r: State)
    requires s.worker.Waiting? && s.locked == {} && s.rows == Statuses(rows)
    requires Job(id) in s.queue && StatusOf(s, id) == Some(STARTING) && s.processing == []
    ensures Run(s, events) == Some(r) && r.worker.Waiting? && r.locked == {} && r.processing == []
    ensures r.queue != [] && r.queue[0] == Job(id) && StatusOf(r, id) == Some(STARTING)
    decreases |s.queue|
  {
    if s.queue[0] == Job(id) {
      events, r := [], s;
    } else {
      var sandbox := CreationFails("");
      var first, s' := UninterruptedTurn(s, rows, sandbox);
      assert s.queue == [s.queue[0]] + s.queue[1..];
      var rows' := Processed(rows, s.keys, s.queue[0], sandbox);
      assert rows'[id] == rows[id];
      var rest;
      rest, r := WorkUpTo(s', rows', id);
      RunsCompose(Next, s, first, rest);
      events := first + rest;
    }
  }

  /** A restart that finds nothing to recover. */
  lemma RestartWithEmptyList(s: State) returns (events: seq<Event>, r: State)
    requires s.worker.Down? && s.processing == []
    ensures Run(s, events) == Some(r) && r == s.(worker := Waiting)
  {
    events, r := Advance(s, [], s, Boot);
    events, r := Advance(s, events, r, RecoveryDone);
  }

  /** A worker that takes up a STARTING job a second time and dies leaves it to recovery, which fails it. */
  lemma SecondClaimIsRecovered(s: State, id: JobId) returns (events: seq<Event>, r: State)
    requires s.worker.Waiting? && s.locked == {} && s.processing == []
    requires s.queue != [] && s.queue[0] == Job(id) && StatusOf(s, id) == Some(STARTING)
    ensures Run(s, events) == Some(r) && StatusOf(r, id) == Some(FAILED)
  {
    events, r := Advance(s, [], s, Claim);
    assert r.processing == [Job(id)];
    events, r := Advance(s, events, r, Crash);
    events, r := Advance(s, events, r, Boot);
    events, r := Advance(s, events, r, RecoverRow);
  }

  lemma QueuedDuplicateEndsJob(s: State, id: JobId) returns (later: seq<Event>)
    requires s.worker.Down? && s.processing == [] && Job(id) in s.queue && StatusOf(s, id) == Some(STARTING)
    ensures Run(s, later).Some? && StatusOf(Run(s, later).value, id) == Some(FAILED)
  {
    later := ReleaseRows(s);
    var more, r := RestartWithEmptyList(s.(locked := {}));
    RunsCompose(Next, s, later, more);
    later := later + more;
    var rows := map x | x in r.rows :: Record("", r.rows[x], "", "", None);
    assert Statuses(rows) == r.rows;
    more, r := WorkUpTo(r, rows, id);
    RunsCompose(Next, s, later, more);
    later := later + more;
    more, r := SecondClaimIsRecovered(r, id);
    RunsCompose(Next, s, later, more);
    later := later + more;
  }

  /**
   After that fault some later run ends the job if and only if a duplicate of
   its identifier is still queued, or its creation has not replied and may yet
   delete the row.
   */
  lemma PublishFaultStrandsJobIff(events: seq<Event>, id: JobId)
    requires Run(INIT, events).Some?
    requires Run(INIT, events).value.worker == Claimed(Job(id)) && Enabled(Run(INIT, events).value, Begin)
    requires StatusOf(Run(INIT, events).value, id) == Some(QUEUED)
    ensures var r := Run(INIT, events).value;
            var f := BeginWithPublishFault(r);
            && StatusOf(f, id) == Some(STARTING)
            && ((exists later :: Run(f, later).Some? && StatusOf(Run(f, later).value, id) != Some(STARTING)) <==>
                Job(id) in r.queue || id !in r.replied)
  {
    RunKeepsInv(INIT, events);
    var r := Run(INIT, events).value;
    var f := BeginWithPublishFault(r);
    EmptyOrHasHead(f.processing);
    if Job(id) in r.queue {
      var later := QueuedDuplicateEndsJob(f, id);
    } else if id !in r.replied {
      var later, gone := Advance(f, [], f, EnqueueFails(id));
    } else {
      assert Abandoned(f, id);
      forall later | Run(f, later).Some? ensures StatusOf(Run(f, later).value, id) == Some(STARTING) {
        AbandonedForever(f, later, id);
      }
    }
  }

  lemma PushIsReached(id: JobId, replies: bool) returns (events: seq<Event>, r: State)
    ensures Run(INIT, events) == Some(r)
    ensures r == INIT.(rows := map[id := QUEUED], queue := [Job(id)], created := {id}, enqueued := {id},
                       replied := if replies then {id} else {})
  {
    events, r := Advance(INIT, [], INIT, Create(id));
    events, r := Advance(INIT, events, r, Enqueue(id));
    if replies {
      events, r := Advance(INIT, events, r, Replied(id));
    }
  }

  /** A run that reaches the claim of its only job, whose creation has replied or is still waiting for Redis. */
  lemma ClaimIsReached(id: JobId, replies: bool) returns (events: seq<Event>, r: State)
    ensures Run(INIT, events) == Some(r) && r.replied == (if replies then {id} else {})
    ensures r.worker == Claimed(Job(id)) && StatusOf(r, id) == Some(QUEUED) && r.locked == {} && r.queue == []
    ensures Surviving(r) && r.created == {id} && r.cancelled == {}
  {
    events, r := PushIsReached(id, replies);
    events, r := Advance(INIT, events, r, Boot);
    events, r := Advance(INIT, events, r, RecoveryDone);
    events, r := Advance(INIT, events, r, Claim);
  }

  /** So one failing publish loses a job for good. */
  lemma OnePublishFaultLosesAJob() returns (events: seq<Event>)
    ensures Run(INIT, events).Some? && Enabled(Run(INIT, events).value, Begin)
    ensures var f := BeginWithPublishFault(Run(INIT, events).value);
            && !JobsSurvive(f)
            && forall later :: Run(f, later).Some? ==> StatusOf(Run(f, later).value, 1) == Some(STARTING)
  {
    var r;
    events, r := ClaimIsReached(1, true);
    PublishFaultStrandsJobIff(events, 1);
    var f := BeginWithPublishFault(r);
    assert Run(f, []).Some? && StatusOf(f, 1) == Some(STARTING);
    RunKeepsInv(INIT, events);
    EmptyOrHasHead(f.processing);
  }

  // ---- The publish after `_finish` raises ----

  /**
   `process` when the publish that follows `_finish` raises. From the exception
   handler the exception escapes. From the body, the handler calls `_finish`
   once more, with FAILED: on a row that is CANCELLED by then this only stores
   outputs, on any other it is one more transition, and the ValueError of an
   illegal one escapes. Clean-up runs in every case.
   */
  function FinishWithPublishFault(s: State): State
    requires Enabled(s, Finish)
  {
    var id := s.worker.id;
    var finished := Step(s, Finish);
    if id !in s.rows then finished
    else if s.worker.handling then Escaped(finished, id)
    else if finished.rows[id] == CANCELLED then finished
    else if Allowed(finished.rows[id], FAILED) then Move(finished, id, FAILED)
    else Escaped(Move(finished, id, FAILED), id)
  }

  /** An exception leaves `process` and then `run`: both `finally` blocks, and the worker is gone. */
  function Escaped(s: State, id: JobId): State {
    s.(worker := Down, keys := s.keys - {id}, returned := s.returned + {id},
       processing := RemoveAll(s.processing, Job(id)))
  }

  lemma FinishIsTerminal(r: State)
    requires Inv(r) && Enabled(r, Finish)
    ensures !Step(r, Finish).illegal
    ensures r.worker.id in r.rows ==>
              Step(r, Finish).rows == r.rows[r.worker.id :=
                if r.rows[r.worker.id] == CANCELLED then CANCELLED else r.worker.target]
    ensures r.worker.target in {CANCELLED, TIMEOUT, COMPLETED, FAILED}
  {
  }

  lemma FaultOutcome(r: State)
    requires Inv(r) && Enabled(r, Finish)
    ensures FinishWithPublishFault(r).illegal <==>
              && r.worker.id in r.rows && !r.worker.handling
              && r.rows[r.worker.id] != CANCELLED && r.worker.target != CANCELLED
    ensures FinishWithPublishFault(r).rows == Step(r, Finish).rows
  {
    FinishIsTerminal(r);
  }

  lemma FaultKeepsJobs(r: State)
    requires Inv(r) && Surviving(r) && Enabled(r, Finish)
    ensures JobsSurvive(FinishWithPublishFault(r))
  {
    FinishIsTerminal(r);
    RunningStepSurvives(r, Finish);
    EscapeKeepsJobs(Step(r, Finish), FinishWithPublishFault(r), r.worker.id);
  }

  lemma EscapeKeepsJobs(s: State, s': State, id: JobId)
    requires JobsSurvive(s) && (id in s.rows ==> Terminal(s.rows[id]))
    requires s'.rows == s.rows && s'.queue == s.queue && s'.enqueued == s.enqueued
    requires s'.processing == s.processing || s'.processing == RemoveAll(s.processing, Job(id))
    ensures JobsSurvive(s')
  {
  }

  /**
   That fault makes an illegal transition exactly when the body of `process`
   called `_finish`, found its row, and neither that nor the observed outcome
   was CANCELLED; the row keeps its outcome, and no job is lost.
   */
  lemma FinishPublishFaultIsIllegalIff(events: seq<Event>)
    requires Run(INIT, events).Some? && Enabled(Run(INIT, events).value, Finish)
    ensures var r := Run(INIT, events).value;
            var f := FinishWithPublishFault(r);
            && (f.illegal <==>
                  && r.worker.id in r.rows && !r.worker.handling
                  && r.rows[r.worker.id] != CANCELLED && r.worker.target != CANCELLED)
            && f.rows == Step(r, Finish).rows
            && (InterruptsAreHarmless(INIT, events) ==> JobsSurvive(f))
  {
    RunKeepsInv(INIT, events);
    FaultOutcome(Run(INIT, events).value);
    if InterruptsAreHarmless(INIT, events) {
      HarmlessRunSurvives(INIT, events);
      FaultKeepsJobs(Run(INIT, events).value);
    }
  }

  /** Then it starts running. */
  lemma MonitoringIsReached(id: JobId, replies: bool) returns (events: seq<Event>, r: State)
    ensures Run(INIT, events) == Some(r) && r.replied == (if replies then {id} else {})
    ensures r.worker == Monitoring(id) && StatusOf(r, id) == Some(RUNNING) && r.locked == {}
    ensures r.created == {id} && r.cancelled == {}
  {
    events, r := ClaimIsReached(id, replies);
    events, r := Advance(INIT, events, r, Begin);
    events, r := Advance(INIT, events, r, Launch);
  }

  /** A run in which that job exits and its outcome is about to be recorded. */
  lemma CompletionIsReached(id: JobId) returns (events: seq<Event>, r: State)
    ensures Run(INIT, events) == Some(r)
    ensures r.worker == Finishing(id, COMPLETED, false) && StatusOf(r, id) == Some(RUNNING) && r.locked == {}
  {
    events, r := MonitoringIsReached(id, true);
    events, r := Advance(INIT, events, r, Observe(COMPLETED));
  }

  /** It does happen: the first job of a worker, run to completion. */
  lemma FinishPublishFaultIsReached() returns (events: seq<Event>)
    ensures Run(INIT, events).Some? && Enabled(Run(INIT, events).value, Finish)
    ensures FinishWithPublishFault(Run(INIT, events).value).illegal
  {
    var r;
    events, r := CompletionIsReached(1);
    FinishPublishFaultIsIllegalIff(events);
  }

  // ---- An orderly interruption ----

  /** Interrupted with a claimed job in hand, the worker leaves it to nobody. */
  lemma InterruptedStartIsFinal(r: State, id: JobId)
    requires Inv(r) && r.worker == Preparing(id) && Job(id) !in r.queue && id in r.replied
    ensures forall later :: Run(Step(r, Interrupt(true)), later).Some? ==>
                              StatusOf(Run(Step(r, Interrupt(true)), later).value, id) == Some(STARTING)
  {
    var s := Step(r, Interrupt(true));
    assert Abandoned(s, id);
    forall later | Run(s, later).Some? ensures StatusOf(Run(s, later).value, id) == Some(STARTING) {
      AbandonedForever(s, later, id);
    }
  }

  lemma StartIsReached(id: JobId) returns (events: seq<Event>, r: State)
    ensures Run(INIT, events) == Some(r) && Inv(r) && Surviving(r)
    ensures r.worker == Preparing(id) && StatusOf(r, id) == Some(STARTING) && r.queue == [] && id in r.replied
  {
    events, r := ClaimIsReached(id, true);
    RunKeepsInv(INIT, events);
    StepKeepsInv(r, Begin);
    StepSurvives(r, Begin);
    events, r := Advance(INIT, events, r, Begin);
  }

  /** A run in which that loses a job for good which a crash at the same point would have kept. */
  lemma InterruptLosesAJob() returns (events: seq<Event>)
    ensures Run(INIT, events).Some? && Run(INIT, events).value.worker == Preparing(1)
    ensures var r := Run(INIT, events).value;
            && JobsSurvive(Step(r, Crash)) && !JobsSurvive(Step(r, Interrupt(true)))
            && forall later :: Run(Step(r, Interrupt(true)), later).Some? ==>
                                 StatusOf(Run(Step(r, Interrupt(true)), later).value, 1) == Some(STARTING)
  {
    var r;
    events, r := StartIsReached(1);
    InterruptSurvivesIff(r, true);
    RecoveryStepSurvives(r, Crash);
    InterruptedStartIsFinal(r, 1);
  }

  // ---- Requests that are answered with an error and take effect ----

  /**
   A job whose creation was answered with an error, because the push raised
   after Redis had taken it, is run to its end without a row: the worker is
   monitoring it, and its outcome is recorded nowhere.
   */
  lemma RefusedJobStillRuns() returns (events: seq<Event>)
    ensures EnqueueFails(1) in events && Run(INIT, events).Some?
    ensures var r := Run(INIT, events).value;
            r.worker == Monitoring(1) && 1 !in r.rows && 1 !in r.replied
  {
    var r;
    events, r := MonitoringIsReached(1, false);
    events, r := Advance(INIT, events, r, EnqueueFails(1));
  }

  /** And when the row goes earlier, the second transition of `process` misses it: its early return is taken. */
  lemma EarlyReturnIsTaken() returns (events: seq<Event>)
    ensures Run(INIT, events).Some? && Enabled(Run(INIT, events).value, Launch)
    ensures Step(Run(INIT, events).value, Launch).worker == Clearing(1)
  {
    var r;
    events, r := ClaimIsReached(1, false);
    events, r := Advance(INIT, events, r, Begin);
    events, r := Advance(INIT, events, r, EnqueueFails(1));
  }

  lemma KeyIsSeen() returns (events: seq<Event>, r: State)
    ensures Run(INIT, events) == Some(r) && r.worker == Finishing(1, CANCELLED, false)
    ensures StatusOf(r, 1) == Some(RUNNING) && r.locked == {1} && r.cancelled == {}
  {
    events, r := MonitoringIsReached(1, true);
    events, r := Advance(INIT, events, r, MarkCancellation(1));
    events, r := Advance(INIT, events, r, Observe(CANCELLED));
  }

  /** A cancellation that was answered with an error cancels all the same when the worker has seen its key. */
  lemma RefusedCancellationStillCancels() returns (events: seq<Event>)
    ensures Run(INIT, events).Some?
    ensures var r := Run(INIT, events).value; StatusOf(r, 1) == Some(CANCELLED) && 1 !in r.cancelled
  {
    var r;
    events, r := KeyIsSeen();
    events, r := Advance(INIT, events, r, CancellationFails(1));
    events, r := Advance(INIT, events, r, Finish);
  }
}

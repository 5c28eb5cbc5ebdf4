/** What the execution lifecycle promises over every run of API calls, worker steps, crashes and restarts. */
module ExecutionTheorems {
  import opened Prelude
  import opened Runs
  import opened ExecutionStatus
  import opened ExecutionLifecycle

  /**
   The worker may die between any two steps; it may also be interrupted in an
   orderly way, which is harmless unless it has an unfinished job in hand.
   */
  lemma JobsSurviveCrashes(events: seq<Event>)
    requires Run(INIT, events).Some? && InterruptsAreHarmless(INIT, events)
    ensures JobsSurvive(Run(INIT, events).value)
    ensures Run(INIT, events).value.replied <= Run(INIT, events).value.rows.Keys
  {
    RunKeepsInv(INIT, events);
    HarmlessRunSurvives(INIT, events);
  }

  lemma {:induction false} PrefixesSurvive(s: State, events: seq<Event>, n: nat)
    requires Inv(s) && Surviving(s) && Run(s, events).Some? && n <= |events|
    ensures Run(s, events[..n]).Some?
    ensures InterruptsAreHarmless(s, events) ==> JobsSurvive(Run(s, events[..n]).value)
    decreases n
  {
    if n > 0 {
      PrefixRuns(Next, s, events, n);
      StepKeepsInv(s, events[0]);
      StepSurvives(s, events[0]);
      if InterruptsAreHarmless(s, events) {
        PrefixesSurvive(Step(s, events[0]), events[1..], n - 1);
      }
    }
  }

  lemma {:induction false} HarmfulInterruptLoses(s: State, events: seq<Event>) returns (n: nat)
    requires Inv(s) && Surviving(s) && Run(s, events).Some? && !InterruptsAreHarmless(s, events)
    ensures n <= |events| && Run(s, events[..n]).Some? && !JobsSurvive(Run(s, events[..n]).value)
    decreases |events|
  {
    StepKeepsInv(s, events[0]);
    StepSurvives(s, events[0]);
    if Harmful(s, events[0]) {
      n := 1;
      PrefixRuns(Next, s, events, n);
      assert events[1..][..0] == [];
    } else {
      var m := HarmfulInterruptLoses(Step(s, events[0]), events[1..]);
      n := m + 1;
      PrefixRuns(Next, s, events, n);
    }
  }

  /** No job is missing at any point of a run if and only if each orderly interruption in it was harmless. */
  lemma NoJobIsEverLostIff(events: seq<Event>)
    requires Run(INIT, events).Some?
    ensures forall n :: 0 <= n <= |events| ==> Run(INIT, events[..n]).Some?
    ensures (forall n :: 0 <= n <= |events| ==> JobsSurvive(Run(INIT, events[..n]).value)) <==>
              InterruptsAreHarmless(INIT, events)
  {
    forall n | 0 <= n <= |events|
      ensures Run(INIT, events[..n]).Some?
      ensures InterruptsAreHarmless(INIT, events) ==> JobsSurvive(Run(INIT, events[..n]).value)
    {
      PrefixesSurvive(INIT, events, n);
    }
    if !InterruptsAreHarmless(INIT, events) {
      var n := HarmfulInterruptLoses(INIT, events);
    }
  }

  /**
   When recovery has worked through its list, nothing is left half done: the
   processing list is empty, nothing is STARTING or RUNNING, and every
   accepted job that still waits is in the queue.
   */
  lemma RecoveryReconciles(events: seq<Event>)
    requires Run(INIT, events).Some? && Enabled(Run(INIT, events).value, RecoveryDone)
    ensures var r := Step(Run(INIT, events).value, RecoveryDone);
            && r.processing == []
            && (InterruptsAreHarmless(INIT, events) ==>
                  && (forall id :: id in r.rows ==> !Active(r.rows[id]))
                  && (forall id :: id in r.enqueued && StatusOf(r, id) == Some(QUEUED) ==> Job(id) in r.queue))
  {
    RunKeepsInv(INIT, events);
    RestartKeepsInv(Run(INIT, events).value, RecoveryDone);
    if InterruptsAreHarmless(INIT, events) {
      HarmlessRunSurvives(INIT, events);
      RecoveryStepSurvives(Run(INIT, events).value, RecoveryDone);
    }
  }

  /** No execution is ever claimed twice, duplicates in the queue notwithstanding. */
  lemma StartedAtMostOnce(events: seq<Event>)
    requires Run(INIT, events).Some?
    ensures var started := Run(INIT, events).value.started;
            forall i, j :: 0 <= i < j < |started| ==> started[i] != started[j]
    ensures var r := Run(INIT, events).value;
            forall id :: id in r.rows && Active(r.rows[id]) ==> id in r.started
  {
    RunKeepsInv(INIT, events);
  }

  /** With publishes and calls succeeding, neither the worker nor the API ever attempts an illegal transition. */
  lemma NoIllegalTransition(events: seq<Event>)
    requires Run(INIT, events).Some?
    ensures !Run(INIT, events).value.illegal
  {
    RunKeepsInv(INIT, events);
  }

  // ---- Finality ----

  lemma MoveAdvances(s: State, id: JobId, target: Status)
    requires id in s.rows
    ensures forall x :: x in s.rows ==>
              Progress(s.rows[x]) <= Progress(Move(s, id, target).rows[x]) &&
              (Terminal(s.rows[x]) ==> Move(s, id, target).rows[x] == s.rows[x])
  {
    if Allowed(s.rows[id], target) {
      TransitionsMoveForward(s.rows[id], target);
    }
  }

  /** One step never moves a row backwards, and removes one only for a creation that raised. */
  lemma StepAdvances(s: State, e: Event, id: JobId)
    requires Inv(s) && Enabled(s, e) && id in s.rows
    ensures id in Step(s, e).rows ==>
              && Progress(s.rows[id]) <= Progress(Step(s, e).rows[id])
              && (Terminal(s.rows[id]) ==> Step(s, e).rows[id] == s.rows[id])
    ensures id !in Step(s, e).rows <==> e == EnqueueFails(id)
    ensures id in s.replied ==> id in Step(s, e).rows
  {
    match e {
      case CancelQueued(x) => MoveAdvances(s, x, CANCELLED);
      case CommitCancellation(x) => MoveAdvances(s, x, CANCELLED);
      case RecoverRow =>
        if s.worker.todo[0].Job? && s.worker.todo[0].id in s.rows {
          MoveAdvances(s, s.worker.todo[0].id, FAILED);
        }
      case Begin =>
        if s.worker.item.Job? && s.worker.item.id in s.rows {
          MoveAdvances(s, s.worker.item.id, STARTING);
        }
      case Launch =>
        if s.worker.id in s.rows {
          MoveAdvances(s, s.worker.id, RUNNING);
        }
      case Finish =>
        if s.worker.id in s.rows {
          MoveAdvances(s, s.worker.id, s.worker.target);
        }
      case _ =>
    }
  }

  lemma StepKeepsHistory(s: State, e: Event)
    requires Enabled(s, e)
    ensures s.created <= Step(s, e).created
    ensures s.enqueued <= Step(s, e).enqueued
    ensures s.replied <= Step(s, e).replied
    ensures s.cancelled <= Step(s, e).cancelled
    ensures s.returned <= Step(s, e).returned
  {
  }

  /** A row that was created and then removed is never made again. */
  lemma AbsentStaysAbsent(s: State, e: Event, id: JobId)
    requires Enabled(s, e) && id in s.created && id !in s.rows
    ensures id !in Step(s, e).rows
  {
  }

  /** Over any continuation of any run: statuses only advance, terminal ones are final, replied rows never vanish. */
  lemma {:induction false} StatusesOnlyAdvance(s: State, later: seq<Event>, id: JobId)
    requires Inv(s) && Run(s, later).Some? && id in s.created
    ensures var r := Run(s, later).value;
            && (id in s.rows && id in r.rows ==>
                  Progress(s.rows[id]) <= Progress(r.rows[id]) && (Terminal(s.rows[id]) ==> r.rows[id] == s.rows[id]))
            && (id !in s.rows ==> id !in r.rows)
            && (id in s.replied ==> id in r.rows)
    decreases |later|
  {
    if later != [] {
      var s' := Step(s, later[0]);
      StepKeepsInv(s, later[0]);
      StepKeepsHistory(s, later[0]);
      if id in s.rows {
        StepAdvances(s, later[0], id);
      } else {
        AbsentStaysAbsent(s, later[0], id);
      }
      StatusesOnlyAdvance(s', later[1..], id);
    }
  }

  /**
   A terminal status never changes, across any later crashes, recoveries and
   cancellations; the row itself can only go if its creation never replied.
   */
  lemma TerminalIsFinal(events: seq<Event>, later: seq<Event>, id: JobId)
    requires Run(INIT, events).Some? && Run(Run(INIT, events).value, later).Some?
    requires var r := Run(INIT, events).value; id in r.rows && Terminal(r.rows[id])
    ensures var before, after := Run(INIT, events).value, Run(Run(INIT, events).value, later).value;
            && (id in after.rows ==> after.rows[id] == before.rows[id])
            && (id in before.replied ==> id in after.rows)
  {
    RunKeepsInv(INIT, events);
    StatusesOnlyAdvance(Run(INIT, events).value, later, id);
  }

  lemma {:induction false} HistoryOnlyGrows(s: State, later: seq<Event>)
    requires Run(s, later).Some?
    ensures s.cancelled <= Run(s, later).value.cancelled
    ensures s.returned <= Run(s, later).value.returned
    decreases |later|
  {
    if later != [] {
      StepKeepsHistory(s, later[0]);
      HistoryOnlyGrows(Step(s, later[0]), later[1..]);
    }
  }

  /**
   A cancellation takes effect: of a QUEUED job at once, of a RUNNING one by its
   commit, if the row is still there; either way it then counts as reported.
   Asking leaves the row locked and the key set until then.
   */
  lemma CancellationTakesEffect(events: seq<Event>, id: JobId)
    requires Run(INIT, events).Some?
    ensures var r := Run(INIT, events).value;
            && (Enabled(r, CancelQueued(id)) ==>
                  var r' := Step(r, CancelQueued(id));
                  r'.rows == r.rows[id := CANCELLED] && r'.cancelled == r.cancelled + {id} && r'.keys == r.keys)
            && (Enabled(r, MarkCancellation(id)) ==>
                  var r' := Step(r, MarkCancellation(id));
                  r'.rows == r.rows && r'.keys == r.keys + {id} && r'.locked == r.locked + {id})
            && (Enabled(r, CommitCancellation(id)) ==>
                  var r' := Step(r, CommitCancellation(id));
                  r'.rows == r.rows[id := CANCELLED] && r'.cancelled == r.cancelled + {id} && id !in r'.locked)
  {
    RunKeepsInv(INIT, events);
  }

  /** A creation that replies has its job at the end of the queue and a row that waits. */
  lemma CreationTakesEffect(s: State, id: JobId) returns (events: seq<Event>, r: State)
    requires id !in s.created && id !in s.replied && id !in s.enqueued
    ensures events == [Create(id), Enqueue(id), Replied(id)] && Run(s, events) == Some(r)
    ensures r.rows == s.rows[id := QUEUED] && r.queue == s.queue + [Job(id)] && id in r.replied
    ensures r.processing == s.processing && r.keys == s.keys && r.worker == s.worker
  {
    events, r := Advance(s, [], s, Create(id));
    events, r := Advance(s, events, r, Enqueue(id));
    events, r := Advance(s, events, r, Replied(id));
  }

  /**
   A cancellation that reported success is final: whatever the worker and other
   callers do afterwards, the execution is CANCELLED for as long as its row
   exists, which is forever if its creation had replied.
   */
  lemma CancellationIsFinal(events: seq<Event>, later: seq<Event>, id: JobId)
    requires Run(INIT, events).Some? && Run(Run(INIT, events).value, later).Some?
    requires id in Run(INIT, events).value.cancelled
    ensures var r := Run(Run(INIT, events).value, later).value;
            && (id in r.rows ==> r.rows[id] == CANCELLED)
            && (id in Run(INIT, events).value.replied ==> id in r.rows)
  {
    var r := Run(INIT, events).value;
    RunKeepsInv(INIT, events);
    RunKeepsInv(r, later);
    HistoryOnlyGrows(r, later);
    StatusesOnlyAdvance(r, later, id);
  }

  /** Once a `process` call that claimed a job has returned, no cancellation key for it exists or ever appears. */
  lemma NoCancellationKeySurvives(events: seq<Event>, later: seq<Event>, id: JobId)
    requires Run(INIT, events).Some? && Run(Run(INIT, events).value, later).Some?
    requires id in Run(INIT, events).value.returned
    ensures id !in Run(Run(INIT, events).value, later).value.keys
    ensures id !in Run(Run(INIT, events).value, later).value.locked
  {
    var r := Run(INIT, events).value;
    RunKeepsInv(INIT, events);
    RunKeepsInv(r, later);
    HistoryOnlyGrows(r, later);
  }

  /**
   `_finish` records the observed outcome unless a cancellation committed first
   or the row is gone, which it is only if its creation never replied; it
   touches no other row.
   */
  lemma FinishRecordsTheOutcome(events: seq<Event>)
    requires Run(INIT, events).Some? && Enabled(Run(INIT, events).value, Finish)
    ensures var r := Run(INIT, events).value;
            var id := r.worker.id;
            && (id in r.replied ==> id in r.rows)
            && Step(r, Finish).rows == if id !in r.rows then r.rows
                                       else r.rows[id := if r.rows[id] == CANCELLED then CANCELLED else r.worker.target]
  {
    RunKeepsInv(INIT, events);
  }

  /** With one worker, the second transition of `process` finds STARTING exactly when it finds the row at all. */
  lemma LaunchSucceedsIff(events: seq<Event>)
    requires Run(INIT, events).Some? && Enabled(Run(INIT, events).value, Launch)
    ensures var r := Run(INIT, events).value;
            var r' := Step(r, Launch);
            && (r'.worker == Monitoring(r.worker.id) <==> r.worker.id in r.rows)
            && StatusOf(r', r.worker.id) == (if r.worker.id in r.rows then Some(RUNNING) else None)
            && (r.worker.id in r.replied ==> r.worker.id in r.rows)
  {
    RunKeepsInv(INIT, events);
  }

  /** What else may happen at any time: a key expires, and text that is no identifier turns up in the queue. */
  lemma EnvironmentIsFree(s: State, id: JobId, text: nat)
    ensures id in s.keys ==> Enabled(s, KeyExpires(id)) && Step(s, KeyExpires(id)) == s.(keys := s.keys - {id})
    ensures Enabled(s, StrayItem(text)) && Step(s, StrayItem(text)) == s.(queue := s.queue + [Junk(text)])
  {
  }

  // ---- Cancellations are asked for ----

  lemma StepAsks(s: State, e: Event, id: JobId)
    requires Enabled(s, e)
    ensures id in Step(s, e).asked <==> id in s.asked || e == CancelQueued(id) || e == MarkCancellation(id)
  {
  }

  lemma {:induction false} AskedByEvent(s: State, later: seq<Event>, id: JobId)
    requires Run(s, later).Some?
    ensures id in Run(s, later).value.asked <==>
              id in s.asked || CancelQueued(id) in later || MarkCancellation(id) in later
    decreases |later|
  {
    if later != [] {
      StepAsks(s, later[0], id);
      AskedByEvent(Step(s, later[0]), later[1..], id);
      assert later == [later[0]] + later[1..];
    }
  }

  /**
   An execution becomes CANCELLED only if somebody asked for it, and a
   cancellation key exists only then; the request itself may have been answered
   with an error after the worker saw its key.
   */
  lemma CancelledOnlyIfAsked(events: seq<Event>, id: JobId)
    requires Run(INIT, events).Some?
    ensures var r := Run(INIT, events).value;
            StatusOf(r, id) == Some(CANCELLED) || id in r.keys || id in r.cancelled ==>
              CancelQueued(id) in events || MarkCancellation(id) in events
  {
    RunKeepsInv(INIT, events);
    AskedByEvent(INIT, events, id);
  }

  // ---- A creation that is refused after Redis took the job ----

  lemma StepStartsOnlyRows(s: State, e: Event, id: JobId)
    requires Enabled(s, e) && id in s.created && id !in s.rows
    ensures id in Step(s, e).created && id !in Step(s, e).rows
    ensures id in Step(s, e).started <==> id in s.started
  {
  }

  lemma {:induction false} DeletedJobsNeverStart(s: State, later: seq<Event>, id: JobId)
    requires id in s.created && id !in s.rows && Run(s, later).Some?
    ensures id !in Run(s, later).value.rows
    ensures id in Run(s, later).value.started <==> id in s.started
    decreases |later|
  {
    if later != [] {
      StepStartsOnlyRows(s, later[0], id);
      DeletedJobsNeverStart(Step(s, later[0]), later[1..], id);
    }
  }

  /**
   A creation whose push raised is answered with an error and its row is gone
   for good. Its job is run all the same if and only if the worker had claimed
   it before the row was deleted. The row told: a QUEUED one had not been
   claimed, and any other had, unless it was cancelled first.
   */
  lemma RefusedJobRunsIff(events: seq<Event>, later: seq<Event>, id: JobId)
    requires Run(INIT, events).Some? && Enabled(Run(INIT, events).value, EnqueueFails(id))
    requires Run(Step(Run(INIT, events).value, EnqueueFails(id)), later).Some?
    ensures var before := Run(INIT, events).value;
            var after := Run(Step(before, EnqueueFails(id)), later).value;
            && id !in after.rows
            && (id in after.started <==> id in before.started)
            && (id in before.started ==> id in before.enqueued && before.rows[id] != QUEUED)
            && (before.rows[id] !in {QUEUED, CANCELLED} ==> id in before.started)
  {
    RunKeepsInv(INIT, events);
    DeletedJobsNeverStart(Step(Run(INIT, events).value, EnqueueFails(id)), later, id);
  }
}
